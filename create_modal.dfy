/** src/djs/functions/create/createModal.js: `createRow`, which turns one text-input
    description into an action row holding one text input, and `createModal`, which builds a
    modal and adds one row per row description, logging and skipping the rows that fail.

    Each function is given twice: as a specification function (RowSpec, ModalSpec) that
    says what the call logs, prints and returns, built from one small function per check, and as
    a method (CreateRow, CreateModal) that does what the source does step by step on the SDK's
    builder objects and is proved to agree with it. The diagnostics and console lines a call
    produces are returned in order, as the entries it appends to the reporter's log. */
module CreateModal {
  import opened JsValues
  import opened DiscordData
  import opened Errors
  import opened DiscordBuilders

  const SHORT_STYLE := "TextInputStyle.Short"
  const PARAGRAPH_STYLE := "TextInputStyle.Paragraph"

  // What createRow reports, with the source's messages.
  const CUSTOM_ID_MISSING := Diagnostic(Error("customID is not defined"), Text("customID is not defined in createRow()"))
  const CUSTOM_ID_TOO_LONG := Diagnostic(Error("customID is too long"), Text("customID is too long: MAX 100 characters"))
  const CUSTOM_ID_CONTEXT := Text("error w customID")
  const LABEL_MISSING := Diagnostic(Error("label is not defined"), Text("label is not defined"))
  const LABEL_TOO_LONG := Diagnostic(Error("label is too long"), Text("label is too long: MAX 45 characters"))
  const STYLE_NOTICE := Printed("style is not a valid TextInputStyle\nAuto Assigning TextInputStyle.Short")
  const STYLE_INVALID := Diagnostic(TypeError(ConstAssignment("style")), Text("style is not a valid TextInputStyle"))
  const PLACEHOLDER_TOO_LONG := Diagnostic(Error("placeholder is too long"), Text("placeholder is too long: MAX 100 characters"))
  const REQUIRED_NOTICE := Printed("required is not a boolean\nAuto Assigning required to false")
  const REQUIRED_INVALID := Diagnostic(TypeError(ConstAssignment("required")), Text("required is not a boolean"))

  // What createModal reports.
  const MODAL_CONTEXT := Text("Error creating modal")
  const MODAL_PROPERTIES_MISSING := Diagnostic(Error("One or more modal properties are not defined"), MODAL_CONTEXT)

  /** What one of createRow's field checks contributes: the diagnostics it logs and the lines it
      prints, the value the text input holds for that field afterwards, and the exception that
      escapes createRow from it, if any. */
  datatype Check = Check(log: seq<Diagnostic>, console: seq<ConsoleLine>, applied: Option<JsValue>, escape: Option<JsError>)

  /** Lines 93-116: a missing customID is reported; a present one is reported when longer than
      100 and set in any case, and a failure of the setter is caught and reported. */
  function CustomIdCheck(customID: JsValue, rejects: SdkCall -> bool): Check {
    if !IsDefined(customID) then Check([CUSTOM_ID_MISSING], [], None, None)
    else match LengthExceeds(customID, 100)
      case Threw(e) => Check([], [], None, Some(e))
      case Returned(tooLong) =>
        var warned := if tooLong then [CUSTOM_ID_TOO_LONG] else [];
        match Attempt(rejects, TextInputSetCustomId(customID))
        case Raised(e) => Check(warned + [Diagnostic(e, CUSTOM_ID_CONTEXT)], [], None, None)
        case Normal => Check(warned, [], Some(customID), None)
  }

  /** Lines 117-132: as for customID with a limit of 45, except that a failure of the setter is
      not caught. */
  function LabelCheck(labelValue: JsValue, rejects: SdkCall -> bool): Check {
    if !IsDefined(labelValue) then Check([LABEL_MISSING], [], None, None)
    else match LengthExceeds(labelValue, 45)
      case Threw(e) => Check([], [], None, Some(e))
      case Returned(tooLong) =>
        var warned := if tooLong then [LABEL_TOO_LONG] else [];
        match Attempt(rejects, TextInputSetLabel(labelValue))
        case Raised(e) => Check(warned, [], None, Some(e))
        case Normal => Check(warned, [], Some(labelValue), None)
  }

  /** Lines 133-150. A style that is neither of the two names prints a notice, and the attempted
      correction to the short style throws, because `style` is a `const` binding (line 85); the
      catch reports that TypeError and the setter then receives the style unchanged. */
  function StyleCheck(style: JsValue, rejects: SdkCall -> bool): Check {
    if !IsDefined(style) then Check([], [], None, None)
    else
      var invalid := style != Str(SHORT_STYLE) && style != Str(PARAGRAPH_STYLE);
      var log := if invalid then [STYLE_INVALID] else [];
      var console := if invalid then [STYLE_NOTICE] else [];
      match Attempt(rejects, TextInputSetStyle(style))
      case Raised(e) => Check(log, console, None, Some(e))
      case Normal => Check(log, console, Some(style), None)
  }

  /** Lines 151-160: an optional placeholder, reported when longer than 100 and set in any case. */
  function PlaceholderCheck(placeholder: JsValue, rejects: SdkCall -> bool): Check {
    if !IsDefined(placeholder) then Check([], [], None, None)
    else match LengthExceeds(placeholder, 100)
      case Threw(e) => Check([], [], None, Some(e))
      case Returned(tooLong) =>
        var warned := if tooLong then [PLACEHOLDER_TOO_LONG] else [];
        match Attempt(rejects, TextInputSetPlaceholder(placeholder))
        case Raised(e) => Check(warned, [], None, Some(e))
        case Normal => Check(warned, [], Some(placeholder), None)
  }

  /** Lines 161-172. Only a value that is not a boolean reaches the setter: it prints a notice,
      the correction to `false` throws as for style (`required` is `const`, line 87), the
      TypeError is reported and the setter receives the value unchanged. A boolean is never set. */
  function RequiredCheck(required: JsValue, rejects: SdkCall -> bool): Check {
    if IsDefined(required) then
      if required.Bool? then Check([], [], None, None)
      else match Attempt(rejects, TextInputSetRequired(required))
        case Raised(e) => Check([REQUIRED_INVALID], [REQUIRED_NOTICE], None, Some(e))
        case Normal => Check([REQUIRED_INVALID], [REQUIRED_NOTICE], Some(required), None)
    else match Attempt(rejects, TextInputSetRequired(Bool(false)))
      case Raised(e) => Check([], [], None, Some(e))
      case Normal => Check([], [], Some(Bool(false)), None)
  }

  /** The five checks of createRow, each applied to its own destructured property
      (lines 82-88, with the defaults for style and required). */
  datatype RowChecks = RowChecks(customIdCheck: Check, labelCheck: Check, styleCheck: Check, placeholderCheck: Check, requiredCheck: Check)

  function ChecksOf(textInputObj: JsValue, rejects: SdkCall -> bool): RowChecks
    requires !textInputObj.IsNullish()
  {
    RowChecks(
      CustomIdCheck(Prop(textInputObj, "customID"), rejects),
      LabelCheck(Prop(textInputObj, "label"), rejects),
      StyleCheck(OrDefault(Prop(textInputObj, "style"), Str(SHORT_STYLE)), rejects),
      PlaceholderCheck(Prop(textInputObj, "placeholder"), rejects),
      RequiredCheck(OrDefault(Prop(textInputObj, "required"), Bool(false)), rejects))
  }

  /** The log, console lines and escaping exception of a sequence of checks that run one after
      the other until one of them throws. */
  datatype Trace = Trace(log: seq<Diagnostic>, console: seq<ConsoleLine>, escape: Option<JsError>)

  const DONE := Trace([], [], None)

  /** Runs check `c` after the checks that produced `t`, unless one of those threw. */
  function AndThen(t: Trace, c: Check): Trace {
    if t.escape.Some? then t
    else Trace(t.log + c.log, t.console + c.console, c.escape)
  }

  function Combined(rc: RowChecks): Trace {
    AndThen(AndThen(AndThen(AndThen(AndThen(DONE, rc.customIdCheck), rc.labelCheck), rc.styleCheck),
                    rc.placeholderCheck), rc.requiredCheck)
  }

  /** The text input the checks leave behind. */
  function InputOf(rc: RowChecks): TextInput {
    TextInput(rc.customIdCheck.applied, rc.labelCheck.applied, rc.styleCheck.applied,
              rc.placeholderCheck.applied, rc.requiredCheck.applied)
  }

  /** The end of createRow once the text input exists (lines 93-174), for the outcomes `rc` of
      its five checks: the checks' reports up to the first one that throws, then the text input
      wrapped in a new action row. */
  function RowFrom(rc: RowChecks, rejects: SdkCall -> bool): Run<ActionRow> {
    var t := Combined(rc);
    if t.escape.Some? then Run(t.log, t.console, Threw(t.escape.value))
    else if rejects(NewActionRow) then Run(t.log, t.console, Threw(SdkError(NewActionRow)))
    else
      var addInput := ActionRowAddComponents(InputOf(rc));
      if rejects(addInput) then Run(t.log, t.console, Threw(SdkError(addInput)))
      else Run(t.log, t.console, Returned(EMPTY_ACTION_ROW.Apply(addInput)))
  }

  /** createRow (lines 80-175): destructure, make the text input, run the five checks on it,
      then wrap it in a new action row (line 174). */
  function RowSpec(textInputObj: JsValue, rejects: SdkCall -> bool): Run<ActionRow> {
    if textInputObj.IsNullish() then Run([], [], Threw(TypeError(PropertyOfNullish("customID"))))
    else if rejects(NewTextInput) then Run([], [], Threw(SdkError(NewTextInput)))
    else RowFrom(ChecksOf(textInputObj, rejects), rejects)
  }

  /** Lines 93-116, on the text input being built. */
  method CustomIdStep(field: TextInputBuilder, customID: JsValue, rejects: SdkCall -> bool)
    returns (log: seq<Diagnostic>, console: seq<ConsoleLine>, escape: Option<JsError>)
    requires field.data.customId.None?
    modifies field
    ensures var c := CustomIdCheck(customID, rejects);
      log == c.log && console == c.console && escape == c.escape
      && (escape.None? ==> field.data == old(field.data).(customId := c.applied))
  {
    log, console, escape := [], [], None;
    if !IsDefined(customID) {
      log := log + [CUSTOM_ID_MISSING];
    } else {
      var tooLong := LengthExceeds(customID, 100);
      if tooLong.Threw? {
        escape := Some(tooLong.error);
        return;
      }
      if tooLong.value {
        log := log + [CUSTOM_ID_TOO_LONG];
      }
      var o := field.SetCustomId(customID, rejects);
      if o.Raised? {
        log := log + [Diagnostic(o.error, CUSTOM_ID_CONTEXT)];
      }
    }
  }

  /** Lines 117-132. */
  method LabelStep(field: TextInputBuilder, labelValue: JsValue, rejects: SdkCall -> bool)
    returns (log: seq<Diagnostic>, console: seq<ConsoleLine>, escape: Option<JsError>)
    requires field.data.labelText.None?
    modifies field
    ensures var c := LabelCheck(labelValue, rejects);
      log == c.log && console == c.console && escape == c.escape
      && (escape.None? ==> field.data == old(field.data).(labelText := c.applied))
  {
    log, console, escape := [], [], None;
    if !IsDefined(labelValue) {
      log := log + [LABEL_MISSING];
    } else {
      var tooLong := LengthExceeds(labelValue, 45);
      if tooLong.Threw? {
        escape := Some(tooLong.error);
        return;
      }
      if tooLong.value {
        log := log + [LABEL_TOO_LONG];
      }
      var o := field.SetLabel(labelValue, rejects);
      if o.Raised? {
        escape := Some(o.error);
      }
    }
  }

  /** Lines 133-150. */
  method StyleStep(field: TextInputBuilder, style: JsValue, rejects: SdkCall -> bool)
    returns (log: seq<Diagnostic>, console: seq<ConsoleLine>, escape: Option<JsError>)
    requires field.data.style.None?
    modifies field
    ensures var c := StyleCheck(style, rejects);
      log == c.log && console == c.console && escape == c.escape
      && (escape.None? ==> field.data == old(field.data).(style := c.applied))
  {
    log, console, escape := [], [], None;
    if IsDefined(style) {
      if style != Str(SHORT_STYLE) && style != Str(PARAGRAPH_STYLE) {
        console := console + [STYLE_NOTICE];
        // the assignment to the const `style` throws; the catch logs it and `style` is unchanged
        log := log + [STYLE_INVALID];
      }
      var o := field.SetStyle(style, rejects);
      if o.Raised? {
        escape := Some(o.error);
      }
    }
  }

  /** Lines 151-160. */
  method PlaceholderStep(field: TextInputBuilder, placeholder: JsValue, rejects: SdkCall -> bool)
    returns (log: seq<Diagnostic>, console: seq<ConsoleLine>, escape: Option<JsError>)
    requires field.data.placeholder.None?
    modifies field
    ensures var c := PlaceholderCheck(placeholder, rejects);
      log == c.log && console == c.console && escape == c.escape
      && (escape.None? ==> field.data == old(field.data).(placeholder := c.applied))
  {
    log, console, escape := [], [], None;
    if IsDefined(placeholder) {
      var tooLong := LengthExceeds(placeholder, 100);
      if tooLong.Threw? {
        escape := Some(tooLong.error);
        return;
      }
      if tooLong.value {
        log := log + [PLACEHOLDER_TOO_LONG];
      }
      var o := field.SetPlaceholder(placeholder, rejects);
      if o.Raised? {
        escape := Some(o.error);
      }
    }
  }

  /** Lines 161-172, for `required` after its default (line 87) has been applied. */
  method RequiredStep(field: TextInputBuilder, required: JsValue, rejects: SdkCall -> bool)
    returns (log: seq<Diagnostic>, console: seq<ConsoleLine>, escape: Option<JsError>)
    requires IsDefined(required)
    requires field.data.required.None?
    modifies field
    ensures var c := RequiredCheck(required, rejects);
      log == c.log && console == c.console && escape == c.escape
      && (escape.None? ==> field.data == old(field.data).(required := c.applied))
  {
    log, console, escape := [], [], None;
    if IsDefined(required) {
      if !required.Bool? {
        console := console + [REQUIRED_NOTICE];
        // as for style: the assignment to the const `required` throws and is logged
        log := log + [REQUIRED_INVALID];
        var o := field.SetRequired(required, rejects);
        if o.Raised? {
          escape := Some(o.error);
        }
      }
    } else {
      // `setRequired(false)` (line 171) is unreachable: the default makes `required` defined
      assert false;
    }
  }

  /** The five checks of lines 93-172, in order, on a fresh text input; stops at the first
      exception that escapes. */
  method RunChecks(field: TextInputBuilder, textInputObj: JsValue, rejects: SdkCall -> bool)
    returns (log: seq<Diagnostic>, console: seq<ConsoleLine>, escape: Option<JsError>)
    requires !textInputObj.IsNullish()
    requires field.data == EMPTY_TEXT_INPUT
    modifies field
    ensures Trace(log, console, escape) == Combined(ChecksOf(textInputObj, rejects))
    ensures escape.None? ==> field.data == InputOf(ChecksOf(textInputObj, rejects))
  {
    var customID := Prop(textInputObj, "customID");
    var labelValue := Prop(textInputObj, "label");
    var style := OrDefault(Prop(textInputObj, "style"), Str(SHORT_STYLE));
    var placeholder := Prop(textInputObj, "placeholder");
    var required := OrDefault(Prop(textInputObj, "required"), Bool(false));
    ghost var rc := ChecksOf(textInputObj, rejects);
    ghost var t := DONE;

    log, console, escape := CustomIdStep(field, customID, rejects);
    t := AndThen(t, rc.customIdCheck);
    assert Trace(log, console, escape) == t;
    if escape.Some? {
      return;
    }
    var stepLog, stepConsole;
    stepLog, stepConsole, escape := LabelStep(field, labelValue, rejects);
    log, console := log + stepLog, console + stepConsole;
    t := AndThen(t, rc.labelCheck);
    assert Trace(log, console, escape) == t;
    if escape.Some? {
      return;
    }
    stepLog, stepConsole, escape := StyleStep(field, style, rejects);
    log, console := log + stepLog, console + stepConsole;
    t := AndThen(t, rc.styleCheck);
    assert Trace(log, console, escape) == t;
    if escape.Some? {
      return;
    }
    stepLog, stepConsole, escape := PlaceholderStep(field, placeholder, rejects);
    log, console := log + stepLog, console + stepConsole;
    t := AndThen(t, rc.placeholderCheck);
    assert Trace(log, console, escape) == t;
    if escape.Some? {
      return;
    }
    stepLog, stepConsole, escape := RequiredStep(field, required, rejects);
    log, console := log + stepLog, console + stepConsole;
    t := AndThen(t, rc.requiredCheck);
    assert Trace(log, console, escape) == t;
  }

  /** createRow as the source runs it: destructure, make a TextInputBuilder, let the checks
      mutate it, and wrap it in a new action row. */
  method CreateRow(textInputObj: JsValue, rejects: SdkCall -> bool)
    returns (log: seq<Diagnostic>, console: seq<ConsoleLine>, result: Completion<ActionRow>)
    ensures Run(log, console, result) == RowSpec(textInputObj, rejects)
  {
    if textInputObj.IsNullish() {
      log, console, result := [], [], Threw(TypeError(PropertyOfNullish("customID")));
      return;
    }
    if rejects(NewTextInput) {
      log, console, result := [], [], Threw(SdkError(NewTextInput));
      return;
    }
    var textInputField := new TextInputBuilder();
    var escape;
    log, console, escape := RunChecks(textInputField, textInputObj, rejects);
    if escape.Some? {
      result := Threw(escape.value);
      return;
    }
    if rejects(NewActionRow) {
      result := Threw(SdkError(NewActionRow));
      return;
    }
    var addInput := ActionRowAddComponents(textInputField.data);
    if rejects(addInput) {
      result := Threw(SdkError(addInput));
      return;
    }
    result := Returned(EMPTY_ACTION_ROW.Apply(addInput));
  }

  /** `new ModalBuilder().setCustomId(customID).setTitle(title)` (line 54). */
  function ConstructModal(customID: JsValue, title: JsValue, rejects: SdkCall -> bool): Completion<Modal> {
    if rejects(NewModal) then Threw(SdkError(NewModal))
    else if rejects(ModalSetCustomId(customID)) then Threw(SdkError(ModalSetCustomId(customID)))
    else if rejects(ModalSetTitle(title)) then Threw(SdkError(ModalSetTitle(title)))
    else Returned(EMPTY_MODAL.Apply(ModalSetCustomId(customID)).Apply(ModalSetTitle(title)))
  }

  /** The body of the try at line 62 for one row: `newCustomModal.addComponents(createRow(row))`.
      When the modal was not built, looking up `addComponents` on undefined throws before
      createRow is called. */
  function RowAttempt(built: bool, row: JsValue, rejects: SdkCall -> bool): Run<ActionRow> {
    if !built then Run([], [], Threw(TypeError(PropertyOfNullish("addComponents"))))
    else
      var r := RowSpec(row, rejects);
      match r.outcome
      case Threw(_) => r
      case Returned(actionRow) =>
        if rejects(ModalAddComponents(actionRow))
        then Run(r.log, r.console, Threw(SdkError(ModalAddComponents(actionRow))))
        else r
  }

  /** The state of the `rows.forEach` loop (lines 59-66): what it logged and printed, the rows
      added to the modal, and the exception that ended it, if one escaped. */
  datatype LoopState = LoopState(log: seq<Diagnostic>, console: seq<ConsoleLine>, added: seq<ActionRow>, escape: Option<JsError>)

  /** The try body for every row: `attempt(row)` is what line 62 logs, prints and ends with. */
  function Attempts(built: bool, rejects: SdkCall -> bool): JsValue -> Run<ActionRow> {
    row => RowAttempt(built, row, rejects)
  }

  /** `attempt` gives the try body for every row. Stated pointwise, so that a proof about the
      loop as a whole can treat each row's try body as a value. */
  ghost predicate Follows(attempt: JsValue -> Run<ActionRow>, built: bool, rejects: SdkCall -> bool) {
    forall row {:trigger RowAttempt(built, row, rejects)} :: attempt(row) == RowAttempt(built, row, rejects)
  }

  /** One iteration, given what its try body `a` did. The catch handler builds its message
      from `row.customID`, which itself throws when the row is undefined or null. */
  function AddRow(st: LoopState, row: JsValue, a: Run<ActionRow>): LoopState {
    match a.outcome
    case Returned(actionRow) => LoopState(st.log + a.log, st.console + a.console, st.added + [actionRow], None)
    case Threw(e) =>
      if row.IsNullish()
      then LoopState(st.log + a.log, st.console + a.console, st.added, Some(TypeError(PropertyOfNullish("customID"))))
      else LoopState(st.log + a.log + [Diagnostic(e, AddingRow(Prop(row, "customID")))], st.console + a.console, st.added, None)
  }

  /** The loop over `rows`, one iteration per element, stopping when an exception escapes. It
      is stated for any try body `attempt`; createModal's is `Attempts(built, rejects)`. */
  function RowsLoop(rows: seq<JsValue>, attempt: JsValue -> Run<ActionRow>): LoopState
    decreases |rows|
  {
    if rows == [] then LoopState([], [], [], None)
    else
      var st := RowsLoop(rows[..|rows| - 1], attempt);
      if st.escape.Some? then st else AddRow(st, rows[|rows| - 1], attempt(rows[|rows| - 1]))
  }

  /** What follows the modal-level check (lines 51-68): the diagnostics logged so far, whether
      building the modal succeeded, then the loop over `rows`. */
  function ModalFrom(prefix: seq<Diagnostic>, construct: Completion<Modal>, rows: JsValue, rejects: SdkCall -> bool): Run<Option<Modal>> {
    var logged := prefix + (if construct.Threw? then [Diagnostic(construct.error, MODAL_CONTEXT)] else []);
    if !rows.Arr? then
      Run(logged, [], Threw(TypeError(if rows.IsNullish() then PropertyOfNullish("forEach") else NotAFunction("forEach"))))
    else
      var st := RowsLoop(rows.elems, Attempts(construct.Returned?, rejects));
      if st.escape.Some? then Run(logged + st.log, st.console, Threw(st.escape.value))
      else Run(logged + st.log, st.console,
               Returned(if construct.Returned? then Some(construct.value.(components := st.added)) else None))
  }

  /** createModal (lines 40-69): the result is the modal, or undefined (None) when building it
      failed. */
  function ModalSpec(modalObj: JsValue, rejects: SdkCall -> bool): Run<Option<Modal>> {
    if modalObj.IsNullish() then Run([], [], Threw(TypeError(PropertyOfNullish("customID"))))
    else
      var customID, title, rows := Prop(modalObj, "customID"), Prop(modalObj, "title"), Prop(modalObj, "rows");
      var checked := if !IsDefined(customID) || !IsDefined(title) || !IsDefined(rows) then [MODAL_PROPERTIES_MISSING] else [];
      ModalFrom(checked, ConstructModal(customID, title, rejects), rows, rejects)
  }

  /** Once an exception has escaped the loop, later rows change nothing. */
  lemma {:induction false} EscapeIsFinal(rows: seq<JsValue>, k: nat, attempt: JsValue -> Run<ActionRow>)
    requires k <= |rows|
    requires RowsLoop(rows[..k], attempt).escape.Some?
    ensures RowsLoop(rows, attempt) == RowsLoop(rows[..k], attempt)
    decreases |rows| - k
  {
    if k < |rows| {
      assert rows[..k + 1][..k] == rows[..k];
      EscapeIsFinal(rows, k + 1, attempt);
    } else {
      assert rows[..k] == rows;
    }
  }

  /** Line 54 inside its try (lines 53-58): the modal, or the diagnostic reported when building
      it failed. */
  method BuildModal(customID: JsValue, title: JsValue, rejects: SdkCall -> bool)
    returns (log: seq<Diagnostic>, newCustomModal: Option<ModalBuilder>)
    ensures var construct := ConstructModal(customID, title, rejects);
      && log == (if construct.Threw? then [Diagnostic(construct.error, MODAL_CONTEXT)] else [])
      && newCustomModal.Some? == construct.Returned?
      && (newCustomModal.Some? ==> fresh(newCustomModal.value) && newCustomModal.value.data == construct.value)
  {
    log, newCustomModal := [], None;
    if rejects(NewModal) {
      log := [Diagnostic(SdkError(NewModal), MODAL_CONTEXT)];
      return;
    }
    var modal := new ModalBuilder();
    var o := modal.SetCustomId(customID, rejects);
    if o.Normal? {
      o := modal.SetTitle(title, rejects);
    }
    if o.Raised? {
      log := [Diagnostic(o.error, MODAL_CONTEXT)];
    } else {
      newCustomModal := Some(modal);
    }
  }

  /** The try of line 62 for one row, on the modal if it was built. */
  method TryAddRow(newCustomModal: Option<ModalBuilder>, row: JsValue, rejects: SdkCall -> bool)
    returns (log: seq<Diagnostic>, console: seq<ConsoleLine>, failure: Option<JsError>)
    modifies if newCustomModal.Some? then {newCustomModal.value} else {}
    ensures var a := RowAttempt(newCustomModal.Some?, row, rejects);
      && log == a.log && console == a.console
      && failure == (if a.outcome.Threw? then Some(a.outcome.error) else None)
      && (newCustomModal.Some? ==>
            newCustomModal.value.data ==
              (if a.outcome.Returned?
               then old(newCustomModal.value.data).(components := old(newCustomModal.value.data).components + [a.outcome.value])
               else old(newCustomModal.value.data)))
  {
    log, console, failure := [], [], None;
    if newCustomModal.None? {
      failure := Some(TypeError(PropertyOfNullish("addComponents")));
      return;
    }
    var actionRow;
    log, console, actionRow := CreateRow(row, rejects);
    if actionRow.Threw? {
      failure := Some(actionRow.error);
      return;
    }
    var o := newCustomModal.value.AddComponents(actionRow.value, rejects);
    if o.Raised? {
      failure := Some(o.error);
    }
  }

  /** One iteration of the `rows.forEach` loop (lines 60-65), after the loop reached `st`;
      `base` is the modal before the loop. */
  method StepRow(newCustomModal: Option<ModalBuilder>, row: JsValue, rejects: SdkCall -> bool,
                 log: seq<Diagnostic>, console: seq<ConsoleLine>, ghost st: LoopState, ghost base: Modal,
                 ghost attempt: JsValue -> Run<ActionRow>)
    returns (log': seq<Diagnostic>, console': seq<ConsoleLine>, escape: Option<JsError>)
    requires Follows(attempt, newCustomModal.Some?, rejects)
    requires st == LoopState(log, console, st.added, None)
    requires newCustomModal.Some? ==> newCustomModal.value.data == base.(components := base.components + st.added)
    modifies if newCustomModal.Some? then {newCustomModal.value} else {}
    ensures var next := AddRow(st, row, attempt(row));
      && log' == next.log && console' == next.console && escape == next.escape
      && (newCustomModal.Some? ==> newCustomModal.value.data == base.(components := base.components + next.added))
  {
    var rowLog, rowConsole, failure := TryAddRow(newCustomModal, row, rejects);
    assert attempt(row) == RowAttempt(newCustomModal.Some?, row, rejects);
    log', console', escape := log + rowLog, console + rowConsole, None;
    if failure.Some? {
      if row.IsNullish() {
        escape := Some(TypeError(PropertyOfNullish("customID")));
      } else {
        log' := log' + [Diagnostic(failure.value, AddingRow(Prop(row, "customID")))];
      }
    }
  }

  /** The `rows.forEach` loop of lines 59-66, on the modal if it was built, where `attempt`
      gives each row's try body. */
  method AddRows(newCustomModal: Option<ModalBuilder>, elems: seq<JsValue>, rejects: SdkCall -> bool,
                 ghost attempt: JsValue -> Run<ActionRow>)
    returns (log: seq<Diagnostic>, console: seq<ConsoleLine>, escape: Option<JsError>)
    requires Follows(attempt, newCustomModal.Some?, rejects)
    modifies if newCustomModal.Some? then {newCustomModal.value} else {}
    ensures var st := RowsLoop(elems, attempt);
      && log == st.log && console == st.console && escape == st.escape
      && (newCustomModal.Some? ==>
            newCustomModal.value.data == old(newCustomModal.value.data).(components := old(newCustomModal.value.data).components + st.added))
  {
    log, console, escape := [], [], None;
    ghost var base := if newCustomModal.Some? then newCustomModal.value.data else EMPTY_MODAL;
    var i := 0;
    while i < |elems|
      invariant 0 <= i <= |elems|
      invariant escape.None?
      invariant RowsLoop(elems[..i], attempt) == LoopState(log, console, RowsLoop(elems[..i], attempt).added, None)
      invariant newCustomModal.Some? ==>
        newCustomModal.value.data == base.(components := base.components + RowsLoop(elems[..i], attempt).added)
    {
      var row := elems[i];
      assert elems[..i + 1][..i] == elems[..i];
      assert RowsLoop(elems[..i + 1], attempt) == AddRow(RowsLoop(elems[..i], attempt), row, attempt(row));
      log, console, escape := StepRow(newCustomModal, row, rejects, log, console, RowsLoop(elems[..i], attempt), base, attempt);
      if escape.Some? {
        EscapeIsFinal(elems, i + 1, attempt);
        return;
      }
      i := i + 1;
    }
    assert elems[..i] == elems;
  }

  /** Lines 59-68, on the modal line 54 built, if it did (`construct`). */
  method FillModal(prefix: seq<Diagnostic>, buildLog: seq<Diagnostic>, newCustomModal: Option<ModalBuilder>,
                   ghost construct: Completion<Modal>, rows: JsValue, rejects: SdkCall -> bool)
    returns (log: seq<Diagnostic>, console: seq<ConsoleLine>, result: Completion<Option<ModalBuilder>>)
    requires buildLog == if construct.Threw? then [Diagnostic(construct.error, MODAL_CONTEXT)] else []
    requires newCustomModal.Some? == construct.Returned?
    requires newCustomModal.Some? ==> newCustomModal.value.data == construct.value && construct.value.components == []
    modifies if newCustomModal.Some? then {newCustomModal.value} else {}
    ensures var spec := ModalFrom(prefix, construct, rows, rejects);
      && log == spec.log && console == spec.console
      && match spec.outcome
         case Threw(e) => result == Threw(e)
         case Returned(None) => result == Returned(None)
         case Returned(Some(modal)) => result == Returned(newCustomModal) && newCustomModal.value.data == modal
  {
    log, console := prefix + buildLog, [];
    if !rows.Arr? {
      result := Threw(TypeError(if rows.IsNullish() then PropertyOfNullish("forEach") else NotAFunction("forEach")));
      return;
    }
    assert Follows(Attempts(construct.Returned?, rejects), newCustomModal.Some?, rejects);
    var loopLog, loopConsole, escape := AddRows(newCustomModal, rows.elems, rejects, Attempts(construct.Returned?, rejects));
    log, console := log + loopLog, loopConsole;
    if escape.Some? {
      result := Threw(escape.value);
    } else {
      result := Returned(newCustomModal);
    }
  }

  /** Lines 51-68 as the source runs them, after the modal-level check logged `prefix`. */
  method AssembleModal(prefix: seq<Diagnostic>, customID: JsValue, title: JsValue, rows: JsValue, rejects: SdkCall -> bool)
    returns (log: seq<Diagnostic>, console: seq<ConsoleLine>, result: Completion<Option<ModalBuilder>>)
    ensures var spec := ModalFrom(prefix, ConstructModal(customID, title, rejects), rows, rejects);
      && log == spec.log && console == spec.console
      && match spec.outcome
         case Threw(e) => result == Threw(e)
         case Returned(None) => result == Returned(None)
         case Returned(Some(modal)) =>
           result.Returned? && result.value.Some? && fresh(result.value.value) && result.value.value.data == modal
  {
    var buildLog, newCustomModal := BuildModal(customID, title, rejects);
    log, console, result := FillModal(prefix, buildLog, newCustomModal, ConstructModal(customID, title, rejects), rows, rejects);
  }

  /** createModal as the source runs it, on a ModalBuilder that the loop adds rows to. */
  method CreateModal(modalObj: JsValue, rejects: SdkCall -> bool)
    returns (log: seq<Diagnostic>, console: seq<ConsoleLine>, result: Completion<Option<ModalBuilder>>)
    ensures var spec := ModalSpec(modalObj, rejects);
      && log == spec.log && console == spec.console
      && match spec.outcome
         case Threw(e) => result == Threw(e)
         case Returned(None) => result == Returned(None)
         case Returned(Some(modal)) =>
           result.Returned? && result.value.Some? && fresh(result.value.value) && result.value.value.data == modal
  {
    if modalObj.IsNullish() {
      return [], [], Threw(TypeError(PropertyOfNullish("customID")));
    }
    var customID, title, rows := Prop(modalObj, "customID"), Prop(modalObj, "title"), Prop(modalObj, "rows");
    var checked := [];
    if !IsDefined(customID) || !IsDefined(title) || !IsDefined(rows) {
      checked := [MODAL_PROPERTIES_MISSING];
    }
    log, console, result := AssembleModal(checked, customID, title, rows, rejects);
  }
}
