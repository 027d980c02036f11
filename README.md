# createModal, createRow and createEmbed in Dafny

A model of two builder helpers of a Discord bot, src/djs/functions/create/createModal.js and src/djs/functions/create/createEmbed.js. Both take loosely typed description objects and turn them into platform UI payloads built with the SDK's builders:

- `createRow` turns one text-input description into an action row that holds a single text input. It runs five checks in a fixed order: customID, label, style, placeholder, required. Each check may log diagnostics and may call a setter on the text input builder.
- `createModal` checks the modal-level properties and builds a `ModalBuilder`. It then loops over `rows`, and each row either is added or is caught and logged.
- `createEmbed` applies a validity rule. It then copies the truthy properties of the description onto a new `EmbedBuilder` and adds its fields. Each stage has its own catch that logs once and returns the shared fallback `errEmbed`.

## How the model is built

- **Values.** `JsValues.JsValue` holds the JavaScript values the descriptions are made of. The module also defines truthiness, property reads, UTF-16 `length`, `>` against a numeric limit, and destructuring defaults.
- **Builders.** The SDK builders are classes whose `data` field the setters update in place (`DiscordBuilders`). Whether the SDK rejects a call is the parameter `rejects: SdkCall -> bool`. It gets every call with its arguments.
- **Outcomes.** Each function's outcome is a `Completion`: it either returned a value or threw past its caller. This separates what a function catches from what escapes it.
- **Reports.** A call returns what it logged (a list of `Diagnostic`: error and context message) and, separately, what it printed, each in order.
- **Two forms of each function.**
  - A specification function (`RowSpec`, `ModalSpec`, `EmbedSpec`) is built from one small function per check or stage.
  - A method (`CreateRow`, `CreateModal`, `CreateEmbed`) does what the source does, step by step, on builder objects. Its `ensures` clause ties its results and the builder's new state to the specification function.
  - The properties are lemmas about the specification functions (`CreateModalProperties`, `CreateEmbedProperties`).

Model decisions:

- **`scripts.isDefined`** is not part of this model. Following the comment at createModal.js:43, it is assumed true for every value except `undefined`. So `null` counts as defined, and reading `null.length` then throws a TypeError that escapes `createRow`.
- **`style` and `required` are `const` bindings** (createModal.js:82-88).
  - The "Auto Assigning" assignments at lines 144 and 164 throw a TypeError. The surrounding catch logs that TypeError.
  - The setter then receives the original invalid value. The printed notice says the value was corrected; the model follows the code.
- **`setRequired` sits inside the non-boolean branch** (lines 162-169). A boolean `required` is never handed to the builder.
  - The default `required = false` makes `isDefined(required)` always true, so `setRequired(false)` at line 171 cannot be reached.
- **`newCustomModal.addComponents(createRow(row))` looks up `addComponents` first.** When the modal was not built, that lookup throws, and `createRow` is not called.
- **The catch at line 64 reads `row.customID`.** For an undefined or null row that read throws out of the loop, so it escapes `createModal`.
- **`createModal` is `async`.** An exception that escapes it is a rejected promise; the model treats it as a throw.
- **The two modules use different loggers.**
  - `scripts.logError` and `scripts.cLog` in createModal.js are assumed not to throw. What a throw would do there is under "Left out".
  - The `logError` of createEmbed.js is always guarded. Whether it throws for a given diagnostic is the parameter `logFails`. A failure becomes a `console.error` line (`ReportFailed`).
- **The source's own comments and messages promise outcomes the code does not produce.** In each case the model follows the code:
  - The comment at createEmbed.js:39-40 says at least one of title, description, image or fields must be present, suggesting that a title alone is enough. For `{title: "Hi"}` the code still reads `obj.fields.length` at line 84, inside the fields try. That read throws, so the result is the fallback with one "Error adding fields" diagnostic (`TitleOnlyFallsBack`).
  - The notices printed at createModal.js:142 and :163 say the style is auto-assigned to TextInputStyle.Short and `required` to false. The assignments throw instead, so for the row description with a 150-character customID, label "ok", style "bogus" and required "yes" the code logs three diagnostics and prints two notices, and the text input keeps "bogus" and "yes" (`OverlongInvalidRow`).
  - So only an absent style becomes Short (`StyleDefault`); an invalid one is passed through (`StyleHandling`).

## Model

| member | source | states |
|---|---|---|
| CreateModal.CreateRow | src/djs/functions/create/createModal.js:80-175 | createRow run step by step on a fresh TextInputBuilder logs, prints and returns or throws exactly what RowSpec says |
| CreateModal.RunChecks | src/djs/functions/create/createModal.js:93-172 | the five checks run in order on the text input builder and stop only at an escaping exception; the log, console lines and escape are those of the combined checks, and the builder holds the checks' values |
| CreateModal.CustomIdStep | src/djs/functions/create/createModal.js:93-116 | the customID block gives the log, console and escape of CustomIdCheck, and sets only the custom ID, to the value the check applies |
| CreateModal.LabelStep | src/djs/functions/create/createModal.js:117-132 | the label block gives the outcome of LabelCheck and sets only the label |
| CreateModal.StyleStep | src/djs/functions/create/createModal.js:133-150 | the style block gives the outcome of StyleCheck and sets only the style |
| CreateModal.PlaceholderStep | src/djs/functions/create/createModal.js:151-160 | the placeholder block gives the outcome of PlaceholderCheck and sets only the placeholder |
| CreateModal.RequiredStep | src/djs/functions/create/createModal.js:161-172 | the required block, for a defined value, gives the outcome of RequiredCheck and sets only `required`; the else branch of line 170 cannot be reached |
| CreateModal.CreateModal | src/djs/functions/create/createModal.js:40-69 | createModal run on a ModalBuilder logs, prints and throws as ModalSpec says; when it returns a modal, the modal is a new object holding ModalSpec's data, and it returns undefined when ModalSpec does |
| CreateModal.AssembleModal | src/djs/functions/create/createModal.js:51-68 | building the modal and looping over the rows, after the modal-level check, follows ModalFrom; a returned modal is a new builder |
| CreateModal.BuildModal | src/djs/functions/create/createModal.js:51-58 | `new ModalBuilder().setCustomId(..).setTitle(..)` inside its try gives a new builder holding the custom ID and title, or no builder plus one "Error creating modal" diagnostic naming the failed call |
| CreateModal.FillModal | src/djs/functions/create/createModal.js:59-68 | on the modal built or not built at line 54: the loop's log and console follow ModalFrom, a non-array `rows` throws, and the returned builder holds the modal with the rows ModalFrom adds |
| CreateModal.AddRows | src/djs/functions/create/createModal.js:59-66 | the `rows.forEach` loop yields RowsLoop's log, console and escape, and the modal's components become the old ones followed by the rows RowsLoop adds |
| CreateModal.StepRow | src/djs/functions/create/createModal.js:60-65 | one iteration of the loop is AddRow on its try body: the row is appended, or one "Error adding row" diagnostic is logged, or the catch's `row.customID` throws for a nullish row |
| CreateModal.TryAddRow | src/djs/functions/create/createModal.js:62 | the try body logs and ends as RowAttempt says, and the modal gains exactly the row createRow returned when `addComponents` accepts it, and nothing otherwise |
| CreateModal.EscapeIsFinal | src/djs/functions/create/createModal.js:59-66 | once an exception escapes the loop, the later rows change nothing |
| CreateModalProperties.DiagnosticOrder | src/djs/functions/create/createModal.js:93-172 | whatever the five checks found, the row's diagnostics and console lines are theirs in the order customID, label, style, placeholder, required, up to the first check that throws, and that exception escapes |
| CreateModalProperties.CustomIdHandling | src/djs/functions/create/createModal.js:93-116 | an undefined customID gives exactly one "customID is not defined" diagnostic and stays unset; a present non-null one is set whatever its length, is diagnosed as too long exactly when its UTF-16 length exceeds 100, and a rejected setCustomId is logged as "error w customID", never thrown |
| CreateModalProperties.LabelHandling | src/djs/functions/create/createModal.js:117-132 | a missing label gives one "label is not defined" diagnostic and stays unset; a present one is set whatever its length, diagnosed exactly when longer than 45, and a rejected setLabel escapes |
| CreateModalProperties.PlaceholderHandling | src/djs/functions/create/createModal.js:151-160 | an absent placeholder is neither reported nor set; a present one is set whatever its length and diagnosed exactly when longer than 100 |
| CreateModalProperties.StyleHandling | src/djs/functions/create/createModal.js:133-150 | the two style names pass silently; any other style prints one notice and logs one "style is not a valid TextInputStyle" diagnostic, and setStyle receives it unchanged |
| CreateModalProperties.StyleDefault | src/djs/functions/create/createModal.js:85 | an absent style becomes "TextInputStyle.Short", with nothing reported |
| CreateModalProperties.RequiredHandling | src/djs/functions/create/createModal.js:161-172 | a non-boolean `required` prints one notice, logs one "required is not a boolean" diagnostic and reaches setRequired unchanged; a boolean is neither reported nor set |
| CreateModalProperties.BooleanRequiredNeverSet | src/djs/functions/create/createModal.js:87 | no row createRow returns holds a boolean `required`: the default false and any boolean never reach setRequired |
| CreateModalProperties.SetterFailures | src/djs/functions/create/createModal.js:111-115 | a rejected setCustomId never escapes createRow; when the checks do not throw and the action row is rejected, that failure escapes |
| CreateModalProperties.RowFromEscape | src/djs/functions/create/createModal.js:131 | an exception escaping createRow after the text input exists is one of the checks' own exceptions (setLabel, setStyle, setPlaceholder, setRequired, reading `length`) or a failure of the action row; when no check throws, a rejected `new ActionRowBuilder()` escapes, and when that is accepted a rejected `.addComponents(textInputField)` escapes |
| CreateModalProperties.CustomIdCheckBounds | src/djs/functions/create/createModal.js:93-116 | the customID check throws only for a null customID, and everything it logs carries one of the customID check's three context messages (not defined, too long, "error w customID"), hence one of createRow's eight |
| CreateModalProperties.LabelCheckBounds | src/djs/functions/create/createModal.js:124-131 | the label check throws only for a null label or a rejected setLabel, and logs only with the label check's two context messages (not defined, too long) |
| CreateModalProperties.StyleCheckBounds | src/djs/functions/create/createModal.js:149 | the style check throws only for a rejected setStyle, and logs only with the context "style is not a valid TextInputStyle" |
| CreateModalProperties.PlaceholderCheckBounds | src/djs/functions/create/createModal.js:152-159 | the placeholder check throws only for a null placeholder or a rejected setPlaceholder, and logs only with the context "placeholder is too long" |
| CreateModalProperties.RequiredCheckBounds | src/djs/functions/create/createModal.js:168-171 | the required check throws only for a rejected setRequired, and logs only with the context "required is not a boolean" |
| CreateModalProperties.SingleInput | src/djs/functions/create/createModal.js:174 | a row createRow returns wraps exactly one text input, the one the checks built |
| CreateModalProperties.WellFormedRow | src/djs/functions/create/createModal.js:80-175 | a description with strings within their limits, a valid style and a boolean `required` gives no diagnostics and no console lines, and a row whose text input holds those values with `required` unset |
| CreateModalProperties.WellFormedChecks | src/djs/functions/create/createModal.js:93-172 | each of the five checks of such a description sets its value and reports nothing |
| CreateModalProperties.OverlongInvalidRow | src/djs/functions/create/createModal.js:80-175 | the 150-character customID, label "ok", style "bogus", required "yes" description gives exactly three diagnostics (too long, style, required) and two notices, and the text input keeps every value as given |
| CreateModalProperties.OverlongChecks | src/djs/functions/create/createModal.js:93-172 | the five checks of that description, one by one |
| CreateModalProperties.RowCompleted | src/djs/functions/create/createModal.js:174 | when no check throws and the SDK accepts the action row, createRow returns one row holding the checks' text input, with the checks' reports concatenated in order |
| CreateModalProperties.SurvivorsAppend | src/djs/functions/create/createModal.js:59-66 | the rows whose try body succeeded, taken over a list with one more description, gain that description's row at the end exactly when it succeeded |
| CreateModalProperties.RowsInOrder | src/djs/functions/create/createModal.js:59-66 | when nothing escapes the loop, the rows added are exactly those whose try body returned, in input order |
| CreateModalProperties.RowsLoopBound | src/djs/functions/create/createModal.js:59-66 | the modal never gets more rows than there are row descriptions |
| CreateModalProperties.SkippedCountAppend | src/djs/functions/create/createModal.js:64 | the count of "Error adding row" diagnostics of two logs joined is the sum of their counts |
| CreateModalProperties.RowContextsCount | src/djs/functions/create/createModal.js:64 | a log holding only createRow's contexts has no "Error adding row" diagnostic |
| CreateModalProperties.RowFromContexts | src/djs/functions/create/createModal.js:93-174 | when every check logs only with createRow's own context messages, so does the row |
| CreateModalProperties.RowLogContexts | src/djs/functions/create/createModal.js:80-175 | everything createRow logs carries one of its own eight context messages (lines 97, 108, 114, 121, 128, 146, 156, 166), so never an "Error adding row" or modal context |
| CreateModalProperties.AttemptFacts | src/djs/functions/create/createModal.js:62 | the try body logs only with createRow's own context messages and throws for every undefined or null row description, whether or not the modal was built |
| CreateModalProperties.SkippedRowsLogged | src/djs/functions/create/createModal.js:59-66 | when nothing escapes the loop, every row description is either added or skipped with exactly one "Error adding row" diagnostic: skipped plus added equals the number of descriptions |
| CreateModalProperties.LoopLogAppend | src/djs/functions/create/createModal.js:59-66 | the front-to-back log and console of the loop, over a list with one more row description, gain that row's reports at the end |
| CreateModalProperties.LoopReportsEveryRow | src/djs/functions/create/createModal.js:59-66 | when no row description is undefined or null, nothing escapes, and the loop logs, row after row in input order, each try body's diagnostics followed, for a row that threw, by exactly one "Error adding row <row.customID> to modal" diagnostic; its console lines are the try bodies', in order |
| CreateModalProperties.EscapeIffNullishRow | src/djs/functions/create/createModal.js:59-66 | an exception escapes the loop if and only if some row description is undefined or null, and it is the TypeError of reading `customID` |
| CreateModalProperties.UnbuiltModal | src/djs/functions/create/createModal.js:59-66 | when the modal was not built, each row description gives one "Error adding row" diagnostic for the failed `addComponents` lookup, in order, and nothing is printed or added |
| CreateModalProperties.LoopContexts | src/djs/functions/create/createModal.js:59-66 | the loop never logs a diagnostic with the modal's context |
| CreateModalProperties.ModalFromLog | src/djs/functions/create/createModal.js:51-68 | lines 51-68 keep the diagnostics logged before them as a prefix and never add the modal-level "properties are not defined" diagnostic |
| CreateModalProperties.ModalRows | src/djs/functions/create/createModal.js:54-68 | a modal createModal returns holds exactly the rows whose createRow and `addComponents` succeeded, in input order, and no more rows than there were descriptions |
| CreateModalProperties.ModalPropertiesCheck | src/djs/functions/create/createModal.js:44-49 | when customID, title or rows is undefined, exactly one combined diagnostic is logged, first; otherwise it is never logged |
| CreateModalProperties.MissingTitleStillBuilt | src/djs/functions/create/createModal.js:44-68 | there is no early return: a modal without a title is still built, with `setTitle(undefined)` recorded |
| CreateModalProperties.ModalNotBuilt | src/djs/functions/create/createModal.js:53-66 | when building the modal throws, createModal returns undefined after one diagnostic for the failure and one per row description, plus the combined one when properties are missing |
| CreateModalProperties.RowsNotAnArray | src/djs/functions/create/createModal.js:59 | `rows.forEach` is unguarded: undefined or null rows make createModal throw the TypeError of reading `forEach`, undefined ones after the combined diagnostic, and any other non-array throws that `forEach` is not a function; nothing is printed |
| CreateModalProperties.MiddleRowFails | src/djs/functions/create/createModal.js:59-66 | of three row descriptions whose second fails, the modal gets the first and third rows in order, with one "Error adding row" diagnostic naming the second |
| CreateEmbed.CreateEmbed | src/djs/functions/create/createEmbed.js:38-100 | createEmbed run on builders logs, prints and throws as EmbedSpec says; every fallback returns the very `errEmbed` object, and a built embed is a new builder holding EmbedSpec's embed |
| CreateEmbed.MakeErrEmbed | src/djs/functions/create/createEmbed.js:33-36 | the module-level fallback is a new builder holding the color, title and description of ErrEmbedSpec, or the SDK's exception |
| CreateEmbed.SetProperties | src/djs/functions/create/createEmbed.js:65-72 | the seven conditional setters on a new builder end as PropertiesSpec says, and leave its embed in the builder |
| CreateEmbed.SetTextProperties | src/djs/functions/create/createEmbed.js:66-68 | the title, description and color setters follow TextSetters |
| CreateEmbed.SetMediaProperties | src/djs/functions/create/createEmbed.js:69-72 | the footer, thumbnail, image and author setters follow MediaSetters |
| CreateEmbed.SetIfStep | src/djs/functions/create/createEmbed.js:66 | one `if (cond) embed.setX(..)` keeps the builder in step with SetIf |
| CreateEmbed.AddFieldsStage | src/djs/functions/create/createEmbed.js:83-88 | the fields stage on the builder throws or returns as FieldsSpec says, and leaves FieldsSpec's embed in the builder |
| CreateEmbed.AddFieldsStep | src/djs/functions/create/createEmbed.js:85-87 | after the earlier elements returned, one more element throws a TypeError when nullish, throws the SDK's error when its addField is rejected, and otherwise appends exactly that element's field |
| CreateEmbed.AddFieldsThrown | src/djs/functions/create/createEmbed.js:85-87 | once an element has thrown, later elements are not visited |
| CreateEmbedProperties.ValidityRule | src/djs/functions/create/createEmbed.js:41 | a description is invalid exactly when title, description and image are falsy and `fields` has a falsy length; the check throws exactly for an undefined or null description, or one whose three are falsy and whose `fields` is missing; any truthy one of the three makes it valid |
| CreateEmbedProperties.InvalidInputFallback | src/djs/functions/create/createEmbed.js:41-49 | an invalid description gives the fallback with the one "Invalid properties" diagnostic, logged or, when logging fails, printed |
| CreateEmbedProperties.EmptyDescriptionIsInvalid | src/djs/functions/create/createEmbed.js:41 | empty title, description and image with an empty `fields` array is invalid |
| CreateEmbedProperties.ValidityCheckEscapes | src/djs/functions/create/createEmbed.js:41 | the TypeErrors of the validity check escape createEmbed with nothing logged or printed |
| CreateEmbedProperties.SettersSucceed | src/djs/functions/create/createEmbed.js:65-72 | the setters run to the end exactly when the SDK accepts every call made for a truthy property |
| CreateEmbedProperties.MediaSettersSucceed | src/djs/functions/create/createEmbed.js:69-72 | the media setters run to the end exactly when the earlier ones did and every call for a truthy media property is accepted |
| CreateEmbedProperties.TruthyCopying | src/djs/functions/create/createEmbed.js:65-72 | when no setter throws, each of title, description, color, footer, thumbnail, image and author is set if and only if it is truthy, to the value read from the description, and no field is added |
| CreateEmbedProperties.TextCopying | src/djs/functions/create/createEmbed.js:66-68 | title, description and color are set exactly when truthy, and nothing else is |
| CreateEmbedProperties.MediaCopying | src/djs/functions/create/createEmbed.js:69-72 | footer, thumbnail, image and author are set exactly when truthy, with the footer's text and icon URL and the author's name, icon URL and URL |
| CreateEmbedProperties.MediaKeeps | src/djs/functions/create/createEmbed.js:69-72 | the media setters leave title, description, color and the fields unchanged |
| CreateEmbedProperties.SetIfOutcome | src/djs/functions/create/createEmbed.js:66 | one conditional setter succeeds exactly when the earlier ones did and the SDK accepts the call it makes, and applies the call only when its condition holds |
| CreateEmbedProperties.FieldOrder | src/djs/functions/create/createEmbed.js:85-87 | the field loop succeeds exactly when no element is undefined or null and every `addField` is accepted; it then appends one field per element in input order and changes nothing else |
| CreateEmbedProperties.FieldsOnlyWhenNonEmpty | src/djs/functions/create/createEmbed.js:84-88 | an empty `fields` array adds nothing; a non-empty one runs the loop |
| CreateEmbedProperties.MissingFieldsFallback | src/djs/functions/create/createEmbed.js:83-96 | a valid description without `fields` gets the fallback with one "Error adding fields" diagnostic for reading `length` of undefined |
| CreateEmbedProperties.TitleOnlyFallsBack | src/djs/functions/create/createEmbed.js:83-96 | `{title: "Hi"}` has its title set and still ends with the fallback and one "Error adding fields" diagnostic |
| CreateEmbedProperties.NoPartialEmbed | src/djs/functions/create/createEmbed.js:41-96 | a built embed comes with no report and passed every stage; a fallback comes with exactly one report; an invalid description, a failed construction, a failed setter and a failed field stage each give exactly their own report (the invalid-properties one, then "Error creating EmbedBuilder instance", "Error setting properties of the embed" and "Error adding fields to the embed" with the error that stage threw); an escaping exception comes with none |
| CreateEmbedProperties.ErrEmbedContents | src/djs/functions/create/createEmbed.js:33-36 | the fallback is red (#FF0000), titled "❗️ Error", described "Invalid properties were given to create the embed", with nothing else set |
| CreateEmbedProperties.LoggingFailureHarmless | src/djs/functions/create/createEmbed.js:43-47 | a failing logError never changes what createEmbed returns: each report moves from the log to the console, one for one |
| CreateModal.CustomIdCheck | src/djs/functions/create/createModal.js:93-116 | definition, no contract; followed by CustomIdStep, characterised by CustomIdHandling and CustomIdCheckBounds |
| CreateModal.LabelCheck | src/djs/functions/create/createModal.js:117-132 | definition, no contract; followed by LabelStep, characterised by LabelHandling and LabelCheckBounds |
| CreateModal.StyleCheck | src/djs/functions/create/createModal.js:133-150 | definition, no contract; followed by StyleStep, characterised by StyleHandling and StyleCheckBounds |
| CreateModal.PlaceholderCheck | src/djs/functions/create/createModal.js:151-160 | definition, no contract; followed by PlaceholderStep, characterised by PlaceholderHandling and PlaceholderCheckBounds |
| CreateModal.RequiredCheck | src/djs/functions/create/createModal.js:161-172 | definition, no contract; followed by RequiredStep, characterised by RequiredHandling and RequiredCheckBounds |
| CreateModal.RowFrom | src/djs/functions/create/createModal.js:93-174 | definition, no contract; followed by RunChecks and CreateRow, characterised by DiagnosticOrder, RowFromEscape and RowCompleted |
| CreateModal.ChecksOf | src/djs/functions/create/createModal.js:82-88 | definition, no contract; the five checks on the destructured properties, with the defaults of lines 85 and 87; followed by CreateRow, characterised by WellFormedChecks, OverlongChecks and SetterFailures |
| CreateModal.AndThen | src/djs/functions/create/createModal.js:93-172 | definition, no contract; one check running after the earlier ones unless one of them threw; followed by RunChecks, characterised by DiagnosticOrder |
| CreateModal.Combined | src/djs/functions/create/createModal.js:93-172 | definition, no contract; the five checks in order until one throws; followed by RunChecks, characterised by DiagnosticOrder, RowFromEscape and RowCompleted |
| CreateModal.RowSpec | src/djs/functions/create/createModal.js:80-175 | definition, no contract; followed by CreateRow, characterised by SingleInput, SetterFailures, BooleanRequiredNeverSet and RowLogContexts |
| CreateModal.ConstructModal | src/djs/functions/create/createModal.js:54 | definition, no contract; followed by BuildModal, characterised by MissingTitleStillBuilt and ModalNotBuilt |
| CreateModal.RowAttempt | src/djs/functions/create/createModal.js:62 | definition, no contract; followed by TryAddRow, characterised by AttemptFacts |
| CreateModal.AddRow | src/djs/functions/create/createModal.js:60-65 | definition, no contract; followed by StepRow |
| CreateModal.RowsLoop | src/djs/functions/create/createModal.js:59-66 | definition, no contract; followed by AddRows, characterised by RowsInOrder, RowsLoopBound, LoopReportsEveryRow, SkippedRowsLogged and EscapeIffNullishRow |
| CreateModal.ModalFrom | src/djs/functions/create/createModal.js:51-68 | definition, no contract; followed by AssembleModal and FillModal, characterised by ModalFromLog |
| CreateModal.ModalSpec | src/djs/functions/create/createModal.js:40-69 | definition, no contract; followed by CreateModal, characterised by ModalPropertiesCheck, ModalRows, ModalNotBuilt and RowsNotAnArray |
| CreateEmbed.ErrEmbedSpec | src/djs/functions/create/createEmbed.js:33-36 | definition, no contract; followed by MakeErrEmbed, characterised by ErrEmbedContents |
| CreateEmbed.InvalidCheck | src/djs/functions/create/createEmbed.js:41 | definition, no contract; characterised by ValidityRule |
| CreateEmbed.Report | src/djs/functions/create/createEmbed.js:43-48 | definition, no contract; used for every stage's catch, characterised by InvalidInputFallback and LoggingFailureHarmless |
| CreateEmbed.TextSetters | src/djs/functions/create/createEmbed.js:66-68 | definition, no contract; followed by SetTextProperties, characterised by TextCopying |
| CreateEmbed.SetIf | src/djs/functions/create/createEmbed.js:66-72 | definition, no contract; one `if (cond) embed.setX(..)`; followed by SetIfStep, characterised by SetIfOutcome |
| CreateEmbed.FooterCall | src/djs/functions/create/createEmbed.js:69 | definition, no contract; the `setFooter` call with `text` and `iconURL` read from `footer`; followed by SetMediaProperties, characterised by MediaSettersSucceed and MediaCopying |
| CreateEmbed.AuthorCall | src/djs/functions/create/createEmbed.js:72 | definition, no contract; the `setAuthor` call with `name`, `iconURL` and `url` read from `author`; followed by SetMediaProperties, characterised by MediaSettersSucceed and MediaCopying |
| CreateEmbed.MediaSetters | src/djs/functions/create/createEmbed.js:69-72 | definition, no contract; MediaChain on the four properties read from `obj`; followed by SetMediaProperties, characterised by TruthyCopying and SettersSucceed |
| CreateEmbed.MediaChain | src/djs/functions/create/createEmbed.js:69-72 | definition, no contract; followed by SetMediaProperties, characterised by MediaSettersSucceed, MediaCopying and MediaKeeps |
| CreateEmbed.PropertiesSpec | src/djs/functions/create/createEmbed.js:65-72 | definition, no contract; followed by SetProperties, characterised by SettersSucceed and TruthyCopying |
| CreateEmbed.FieldOf | src/djs/functions/create/createEmbed.js:86 | definition, no contract; the `name`, `value` and `inline` read from one element; followed by AddFieldsStage, characterised by FieldOrder |
| CreateEmbed.FieldCall | src/djs/functions/create/createEmbed.js:86 | definition, no contract; the `addField` call for one element, built from FieldOf; followed by AddFieldsStage, characterised by FieldOrder and AddFieldsStep |
| CreateEmbed.AddFieldTo | src/djs/functions/create/createEmbed.js:86 | definition, no contract; one iteration of the loop of AddFieldsStage |
| CreateEmbed.AddFields | src/djs/functions/create/createEmbed.js:85-87 | definition, no contract; followed by AddFieldsStage, characterised by FieldOrder and AddFieldsThrown |
| CreateEmbed.FieldsSpec | src/djs/functions/create/createEmbed.js:83-88 | definition, no contract; followed by AddFieldsStage, characterised by FieldsOnlyWhenNonEmpty |
| CreateEmbed.EmbedSpec | src/djs/functions/create/createEmbed.js:38-100 | definition, no contract; followed by CreateEmbed, characterised by NoPartialEmbed, MissingFieldsFallback and LoggingFailureHarmless |
| JsValues.IsDefined | src/djs/functions/create/createModal.js:43-44 | definition, no contract; `scripts.isDefined`, assumed true of everything but `undefined`; used by every check and by createModal's property check, characterised by ModalPropertiesCheck, CustomIdHandling and LabelHandling |
| JsValues.OrDefault | src/djs/functions/create/createModal.js:85-87 | a destructuring default replaces `undefined` only, and a defined default makes the binding defined |
| JsValues.Utf16Length | src/djs/functions/create/createModal.js:104 | `length` of a string counts UTF-16 code units: between one and two per character, one each when no character is beyond U+FFFF |
| Errors.LengthExceeds | src/djs/functions/create/createModal.js:104 | `v.length > limit` throws exactly for undefined and null, and compares the UTF-16 length of a string or the size of an array |

## Left out

- I/O. `scripts.logError`, `scripts.cLog` and `console.error` become lists of diagnostics and console lines. Where their output goes, and their formatting, is not modelled.
- `scripts.isDefined`, whose source is not part of this model, is assumed to be `v !== undefined`.
- `scripts.logError` and `scripts.cLog` in createModal.js are assumed never to throw.
  - `cLog` (lines 141 and 163) is called inside a try. If it threw, the catch at line 145 or 165 would log that failure, and the notice would not be printed.
  - A throw of `logError` inside one of createRow's catches would escape `createRow`. Called from `createModal`, it would then be caught by the loop's catch at line 63.
  - A throw of `logError` at lines 45, 56 or 64 would escape `createModal` itself.
- The `async` wrapper of `createModal`: a throw stands for the rejected promise.
- The SDK builders' own validation, colour parsing and serialisation are foreign code. Which calls they reject is the parameter `rejects`, which depends on the call and its arguments only.
  - The discord.js v14 `EmbedBuilder` may not have `addField`, and `setFooter`/`setAuthor` expect objects. Those failures are instances of `rejects` too.
- Numbers are integers. NaN, fractions and the conversion of strings, arrays and objects by `>` are not modelled. `GreaterThan` treats those operands as NaN, so a non-numeric `length` property is never "too long".
- Only own data properties exist. Getters, prototypes, and methods on description objects (a `forEach` property, say) are not modelled.
- Builders are modelled by the data they hold. The `errEmbed` object is shared, and CreateEmbed returns that very object, but the model does not follow later mutations of it by callers.
- The module-level `errEmbed` is built once at load time. If its construction throws, the module fails to load; `MakeErrEmbed` returns that exception, and `CreateEmbed` takes the built object as a parameter.
- The order between the log and the console. `Run` keeps them as two separate sequences, so it does not record that a notice is printed before the diagnostic that follows it (createModal.js:141-146, 163-166).
- src/djs/commands/Other/test.js is a caller that registers a slash command and replies over the network. It is not part of this model.
