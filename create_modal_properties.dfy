/** What createRow and createModal (src/djs/functions/create/createModal.js) guarantee,
    proved about their specification functions RowSpec and ModalSpec, which the methods
    CreateRow and CreateModal are proved to follow. */
module CreateModalProperties {
  import opened JsValues
  import opened DiscordData
  import opened Errors
  import opened CreateModal

  // ---------------------------------------------------------------- createRow

  /** The checks run in the fixed order customID, label, style, placeholder, required, and a
      check that only reports never stops the later ones: whatever the five checks found, the
      row's diagnostics and console lines are theirs up to the first one that throws, in that
      order, and that exception escapes. */
  lemma DiagnosticOrder(rc: RowChecks, rejects: SdkCall -> bool)
    ensures var c1, c2, c3, c4, c5 := rc.customIdCheck, rc.labelCheck, rc.styleCheck, rc.placeholderCheck, rc.requiredCheck;
      var r := RowFrom(rc, rejects);
      && (c1.escape.Some? ==> r == Run(c1.log, c1.console, Threw(c1.escape.value)))
      && (c1.escape.None? && c2.escape.Some? ==>
            r == Run(c1.log + c2.log, c1.console + c2.console, Threw(c2.escape.value)))
      && (c1.escape.None? && c2.escape.None? && c3.escape.Some? ==>
            r == Run(c1.log + c2.log + c3.log, c1.console + c2.console + c3.console, Threw(c3.escape.value)))
      && (c1.escape.None? && c2.escape.None? && c3.escape.None? && c4.escape.Some? ==>
            r == Run(c1.log + c2.log + c3.log + c4.log, c1.console + c2.console + c3.console + c4.console,
                     Threw(c4.escape.value)))
      && (c1.escape.None? && c2.escape.None? && c3.escape.None? && c4.escape.None? ==>
            r.log == c1.log + c2.log + c3.log + c4.log + c5.log
            && r.console == c1.console + c2.console + c3.console + c4.console + c5.console)
  {
  }

  /** customID (lines 93-116): undefined gives the one "not defined" diagnostic and leaves it
      unset; any other value but null is set whatever its length, is diagnosed before that only
      when its length is over 100, and a failure of the setter is reported, not thrown. */
  lemma CustomIdHandling(customID: JsValue, rejects: SdkCall -> bool)
    ensures var c := CustomIdCheck(customID, rejects);
      && (customID == Undefined ==> c == Check([CUSTOM_ID_MISSING], [], None, None))
      && (customID == Null ==> c == Check([], [], None, Some(TypeError(PropertyOfNullish("length")))))
      && (!customID.IsNullish() ==>
            var call := TextInputSetCustomId(customID);
            && c.escape.None? && c.console == []
            && c.applied == (if rejects(call) then None else Some(customID))
            && c.log == (if GreaterThan(Prop(customID, "length"), 100) then [CUSTOM_ID_TOO_LONG] else [])
                        + (if rejects(call) then [Diagnostic(SdkError(call), CUSTOM_ID_CONTEXT)] else []))
      && (customID.Str? ==> (CUSTOM_ID_TOO_LONG in c.log <==> Utf16Length(customID.s) > 100))
  {
  }

  /** label (lines 117-132): as customID with a limit of 45, except that a failure of the setter
      escapes createRow. */
  lemma LabelHandling(labelValue: JsValue, rejects: SdkCall -> bool)
    ensures var c := LabelCheck(labelValue, rejects);
      && (labelValue == Undefined ==> c == Check([LABEL_MISSING], [], None, None))
      && (labelValue == Null ==> c == Check([], [], None, Some(TypeError(PropertyOfNullish("length")))))
      && (!labelValue.IsNullish() ==>
            var call := TextInputSetLabel(labelValue);
            && c.console == []
            && c.log == (if GreaterThan(Prop(labelValue, "length"), 45) then [LABEL_TOO_LONG] else [])
            && (rejects(call) ==> c.applied == None && c.escape == Some(SdkError(call)))
            && (!rejects(call) ==> c.applied == Some(labelValue) && c.escape == None))
      && (labelValue.Str? ==> (LABEL_TOO_LONG in c.log <==> Utf16Length(labelValue.s) > 45))
  {
  }

  /** placeholder (lines 151-160): optional, so an absent one is neither reported nor set; a
      present one is set whatever its length and diagnosed only when longer than 100. */
  lemma PlaceholderHandling(placeholder: JsValue, rejects: SdkCall -> bool)
    ensures var c := PlaceholderCheck(placeholder, rejects);
      && (placeholder == Undefined ==> c == Check([], [], None, None))
      && (placeholder == Null ==> c == Check([], [], None, Some(TypeError(PropertyOfNullish("length")))))
      && (!placeholder.IsNullish() ==>
            var call := TextInputSetPlaceholder(placeholder);
            && c.console == []
            && c.log == (if GreaterThan(Prop(placeholder, "length"), 100) then [PLACEHOLDER_TOO_LONG] else [])
            && (rejects(call) ==> c.applied == None && c.escape == Some(SdkError(call)))
            && (!rejects(call) ==> c.applied == Some(placeholder) && c.escape == None))
      && (placeholder.Str? ==> (PLACEHOLDER_TOO_LONG in c.log <==> Utf16Length(placeholder.s) > 100))
  {
  }

  /** style (lines 85, 133-150): the two style names pass silently; any other value prints one
      notice and logs one diagnostic, and the setter still receives it unchanged. */
  lemma StyleHandling(style: JsValue, rejects: SdkCall -> bool)
    requires IsDefined(style)
    ensures var c := StyleCheck(style, rejects);
      var named := style == Str(SHORT_STYLE) || style == Str(PARAGRAPH_STYLE);
      var call := TextInputSetStyle(style);
      && c.log == (if named then [] else [STYLE_INVALID])
      && c.console == (if named then [] else [STYLE_NOTICE])
      && (rejects(call) ==> c.applied == None && c.escape == Some(SdkError(call)))
      && (!rejects(call) ==> c.applied == Some(style) && c.escape == None)
  {
  }

  /** An absent style is the short style, with nothing reported. */
  lemma StyleDefault(textInputObj: JsValue, rejects: SdkCall -> bool)
    requires !textInputObj.IsNullish() && Prop(textInputObj, "style") == Undefined
    ensures var c := ChecksOf(textInputObj, rejects).styleCheck;
      && c.log == [] && c.console == []
      && (!rejects(TextInputSetStyle(Str(SHORT_STYLE))) ==> c.applied == Some(Str(SHORT_STYLE)))
  {
  }

  /** required (lines 87, 161-172): a value that is not a boolean prints one notice, logs one
      diagnostic and reaches the setter unchanged; a boolean is neither reported nor set. */
  lemma RequiredHandling(required: JsValue, rejects: SdkCall -> bool)
    requires IsDefined(required)
    ensures var c := RequiredCheck(required, rejects);
      var call := TextInputSetRequired(required);
      && (required.Bool? ==> c == Check([], [], None, None))
      && (!required.Bool? ==>
            && c.log == [REQUIRED_INVALID] && c.console == [REQUIRED_NOTICE]
            && (rejects(call) ==> c.applied == None && c.escape == Some(SdkError(call)))
            && (!rejects(call) ==> c.applied == Some(required) && c.escape == None))
  {
  }

  /** Because of the default of line 87, `setRequired(false)` (line 171) is never called, and no
      boolean ever reaches `setRequired`: a row's text input holds no boolean `required`. */
  lemma BooleanRequiredNeverSet(textInputObj: JsValue, rejects: SdkCall -> bool)
    ensures var r := RowSpec(textInputObj, rejects);
      r.outcome.Returned? ==>
        forall input | input in r.outcome.value.components :: input.required.Some? ==> !input.required.value.Bool?
  {
    if !textInputObj.IsNullish() {
      var required := OrDefault(Prop(textInputObj, "required"), Bool(false));
      RequiredHandling(required, rejects);
    }
  }

  /** Of the setters, only a failure of `setCustomId` is caught inside createRow (line 113);
      it never escapes, while a failure of the other four, or of the action row, does. */
  lemma SetterFailures(textInputObj: JsValue, rejects: SdkCall -> bool)
    ensures var r := RowSpec(textInputObj, rejects);
      r.outcome.Threw? && r.outcome.error.SdkError? ==> !r.outcome.error.call.TextInputSetCustomId?
    ensures var r := RowSpec(textInputObj, rejects);
      && !textInputObj.IsNullish() && !rejects(NewTextInput)
      && Combined(ChecksOf(textInputObj, rejects)).escape.None? && rejects(NewActionRow)
      ==> r.outcome == Threw(SdkError(NewActionRow))
  {
    if !textInputObj.IsNullish() && !rejects(NewTextInput) {
      var rc := ChecksOf(textInputObj, rejects);
      CustomIdCheckBounds(Prop(textInputObj, "customID"), rejects);
      LabelCheckBounds(Prop(textInputObj, "label"), rejects);
      StyleCheckBounds(OrDefault(Prop(textInputObj, "style"), Str(SHORT_STYLE)), rejects);
      PlaceholderCheckBounds(Prop(textInputObj, "placeholder"), rejects);
      RequiredCheckBounds(OrDefault(Prop(textInputObj, "required"), Bool(false)), rejects);
      RowFromEscape(rc, rejects);
    }
  }

  /** What can escape once the text input exists: an exception of one of the checks, or a
      failure of `new ActionRowBuilder()` or of its `addComponents` (line 174). */
  lemma RowFromEscape(rc: RowChecks, rejects: SdkCall -> bool)
    ensures var r := RowFrom(rc, rejects);
      r.outcome.Threw? ==>
        || Some(r.outcome.error) in {rc.customIdCheck.escape, rc.labelCheck.escape, rc.styleCheck.escape,
                                     rc.placeholderCheck.escape, rc.requiredCheck.escape}
        || r.outcome.error == SdkError(NewActionRow)
        || r.outcome.error == SdkError(ActionRowAddComponents(InputOf(rc)))
    ensures Combined(rc).escape.None? && rejects(NewActionRow) ==> RowFrom(rc, rejects).outcome == Threw(SdkError(NewActionRow))
    ensures Combined(rc).escape.None? && !rejects(NewActionRow) && rejects(ActionRowAddComponents(InputOf(rc))) ==>
              RowFrom(rc, rejects).outcome == Threw(SdkError(ActionRowAddComponents(InputOf(rc))))
  {
  }

  // A check throws out of createRow only from reading the `length` of null (lines 104, 124,
  // 152) or from a failing setter other than `setCustomId`, whose failure line 113 catches.
  // Everything a check logs carries one of that check's own context messages.

  lemma CustomIdCheckBounds(v: JsValue, rejects: SdkCall -> bool)
    ensures CustomIdCheck(v, rejects).escape.Some? ==> v == Null
    ensures ContextsIn(CustomIdCheck(v, rejects).log, {CUSTOM_ID_MISSING.context, CUSTOM_ID_TOO_LONG.context, CUSTOM_ID_CONTEXT})
    ensures RowContexts(CustomIdCheck(v, rejects).log)
  {
  }

  lemma LabelCheckBounds(v: JsValue, rejects: SdkCall -> bool)
    ensures LabelCheck(v, rejects).escape.Some? ==>
              v == Null || LabelCheck(v, rejects).escape == Some(SdkError(TextInputSetLabel(v)))
    ensures ContextsIn(LabelCheck(v, rejects).log, {LABEL_MISSING.context, LABEL_TOO_LONG.context})
    ensures RowContexts(LabelCheck(v, rejects).log)
  {
  }

  lemma StyleCheckBounds(v: JsValue, rejects: SdkCall -> bool)
    ensures StyleCheck(v, rejects).escape.Some? ==> StyleCheck(v, rejects).escape == Some(SdkError(TextInputSetStyle(v)))
    ensures ContextsIn(StyleCheck(v, rejects).log, {STYLE_INVALID.context})
    ensures RowContexts(StyleCheck(v, rejects).log)
  {
  }

  lemma PlaceholderCheckBounds(v: JsValue, rejects: SdkCall -> bool)
    ensures PlaceholderCheck(v, rejects).escape.Some? ==>
              v == Null || PlaceholderCheck(v, rejects).escape == Some(SdkError(TextInputSetPlaceholder(v)))
    ensures ContextsIn(PlaceholderCheck(v, rejects).log, {PLACEHOLDER_TOO_LONG.context})
    ensures RowContexts(PlaceholderCheck(v, rejects).log)
  {
  }

  lemma RequiredCheckBounds(v: JsValue, rejects: SdkCall -> bool)
    ensures RequiredCheck(v, rejects).escape.Some? ==>
              RequiredCheck(v, rejects).escape == Some(SdkError(TextInputSetRequired(if IsDefined(v) then v else Bool(false))))
    ensures ContextsIn(RequiredCheck(v, rejects).log, {REQUIRED_INVALID.context})
    ensures RowContexts(RequiredCheck(v, rejects).log)
  {
  }

  /** A row that createRow returns wraps exactly one text input (line 174): the one the
      checks built. */
  lemma SingleInput(textInputObj: JsValue, rejects: SdkCall -> bool)
    ensures var r := RowSpec(textInputObj, rejects);
      r.outcome.Returned? ==>
        !textInputObj.IsNullish() && r.outcome.value == ActionRow([InputOf(ChecksOf(textInputObj, rejects))])
  {
  }

  /** A text input whose customID, label and placeholder are strings within their limits, whose
      style is one of the two names and whose `required` is a boolean produces no diagnostics and
      no console lines when the SDK accepts every call; its `required` stays unset. */
  lemma WellFormedRow(textInputObj: JsValue, id: string, labelText: string, style: string, placeholder: string,
                      required: bool, rejects: SdkCall -> bool)
    requires textInputObj.Obj?
    requires Prop(textInputObj, "customID") == Str(id) && Utf16Length(id) <= 100
    requires Prop(textInputObj, "label") == Str(labelText) && Utf16Length(labelText) <= 45
    requires Prop(textInputObj, "style") == Str(style) && (style == SHORT_STYLE || style == PARAGRAPH_STYLE)
    requires Prop(textInputObj, "placeholder") == Str(placeholder) && Utf16Length(placeholder) <= 100
    requires Prop(textInputObj, "required") == Bool(required)
    requires forall call :: !rejects(call)
    ensures RowSpec(textInputObj, rejects)
            == Run([], [], Returned(ActionRow([TextInput(Some(Str(id)), Some(Str(labelText)), Some(Str(style)),
                                                         Some(Str(placeholder)), None)])))
  {
    var rc := WellFormedChecks(textInputObj, id, labelText, style, placeholder, required, rejects);
    RowCompleted(rc, rejects);
  }

  /** The five checks of a well-formed row description: each sets its value, reporting nothing. */
  lemma WellFormedChecks(textInputObj: JsValue, id: string, labelText: string, style: string, placeholder: string,
                         required: bool, rejects: SdkCall -> bool)
    returns (rc: RowChecks)
    requires textInputObj.Obj?
    requires Prop(textInputObj, "customID") == Str(id) && Utf16Length(id) <= 100
    requires Prop(textInputObj, "label") == Str(labelText) && Utf16Length(labelText) <= 45
    requires Prop(textInputObj, "style") == Str(style) && (style == SHORT_STYLE || style == PARAGRAPH_STYLE)
    requires Prop(textInputObj, "placeholder") == Str(placeholder) && Utf16Length(placeholder) <= 100
    requires Prop(textInputObj, "required") == Bool(required)
    requires forall call :: !rejects(call)
    ensures rc == ChecksOf(textInputObj, rejects)
    ensures rc == RowChecks(Check([], [], Some(Str(id)), None), Check([], [], Some(Str(labelText)), None),
                            Check([], [], Some(Str(style)), None), Check([], [], Some(Str(placeholder)), None),
                            Check([], [], None, None))
  {
    rc := ChecksOf(textInputObj, rejects);
  }

  /** A customID of 150 characters. */
  const LONG_ID: string := seq(150, _ => 'a')

  /** The row description with a 150-character customID, the label "ok", the style "bogus",
      no placeholder and the `required` value "yes": three diagnostics and two console notices,
      and the text input keeps every value as given (the style is not corrected to the short
      style, nor `required` to false). */
  lemma OverlongInvalidRow(textInputObj: JsValue, rejects: SdkCall -> bool)
    requires textInputObj.Obj?
    requires Prop(textInputObj, "customID") == Str(LONG_ID) && Prop(textInputObj, "label") == Str("ok")
    requires Prop(textInputObj, "style") == Str("bogus") && Prop(textInputObj, "placeholder") == Undefined
    requires Prop(textInputObj, "required") == Str("yes")
    requires forall call :: !rejects(call)
    ensures RowSpec(textInputObj, rejects)
            == Run([CUSTOM_ID_TOO_LONG, STYLE_INVALID, REQUIRED_INVALID], [STYLE_NOTICE, REQUIRED_NOTICE],
                   Returned(ActionRow([TextInput(Some(Str(LONG_ID)), Some(Str("ok")), Some(Str("bogus")),
                                                 None, Some(Str("yes")))])))
  {
    var rc := OverlongChecks(textInputObj, rejects);
    RowCompleted(rc, rejects);
  }

  /** The five checks of that row description. */
  lemma OverlongChecks(textInputObj: JsValue, rejects: SdkCall -> bool) returns (rc: RowChecks)
    requires textInputObj.Obj?
    requires Prop(textInputObj, "customID") == Str(LONG_ID) && Prop(textInputObj, "label") == Str("ok")
    requires Prop(textInputObj, "style") == Str("bogus") && Prop(textInputObj, "placeholder") == Undefined
    requires Prop(textInputObj, "required") == Str("yes")
    requires forall call :: !rejects(call)
    ensures rc == ChecksOf(textInputObj, rejects)
    ensures rc == RowChecks(Check([CUSTOM_ID_TOO_LONG], [], Some(Str(LONG_ID)), None), Check([], [], Some(Str("ok")), None),
                            Check([STYLE_INVALID], [STYLE_NOTICE], Some(Str("bogus")), None), Check([], [], None, None),
                            Check([REQUIRED_INVALID], [REQUIRED_NOTICE], Some(Str("yes")), None))
  {
    var id := LONG_ID;
    assert forall i :: 0 <= i < |id| ==> id[i] as int <= 0xFFFF;
    assert Utf16Length(id) == 150;
    rc := ChecksOf(textInputObj, rejects);
  }

  /** When no check throws and the SDK accepts the action row, createRow returns the row holding
      the one text input the checks built, with the checks' reports in order (lines 93-174). */
  lemma RowCompleted(rc: RowChecks, rejects: SdkCall -> bool)
    requires rc.customIdCheck.escape.None? && rc.labelCheck.escape.None? && rc.styleCheck.escape.None?
    requires rc.placeholderCheck.escape.None? && rc.requiredCheck.escape.None?
    requires !rejects(NewActionRow) && !rejects(ActionRowAddComponents(InputOf(rc)))
    ensures var c1, c2, c3, c4, c5 := rc.customIdCheck, rc.labelCheck, rc.styleCheck, rc.placeholderCheck, rc.requiredCheck;
      RowFrom(rc, rejects)
      == Run(c1.log + c2.log + c3.log + c4.log + c5.log, c1.console + c2.console + c3.console + c4.console + c5.console,
             Returned(ActionRow([InputOf(rc)])))
  {
    assert EMPTY_ACTION_ROW.Apply(ActionRowAddComponents(InputOf(rc))) == ActionRow([InputOf(rc)]);
  }

  // ---------------------------------------------------------------- createModal

  /** The rows that the loop adds, in input order: those whose try body returned an action row. */
  function Survivors(rows: seq<JsValue>, attempt: JsValue -> Run<ActionRow>): seq<ActionRow>
    decreases |rows|
  {
    if rows == [] then []
    else
      var a := attempt(rows[0]);
      (if a.outcome.Returned? then [a.outcome.value] else []) + Survivors(rows[1..], attempt)
  }

  lemma {:induction false} SurvivorsAppend(rows: seq<JsValue>, row: JsValue, attempt: JsValue -> Run<ActionRow>)
    ensures var a := attempt(row);
      Survivors(rows + [row], attempt) == Survivors(rows, attempt) + (if a.outcome.Returned? then [a.outcome.value] else [])
    decreases |rows|
  {
    if rows != [] {
      assert (rows + [row])[1..] == rows[1..] + [row];
      SurvivorsAppend(rows[1..], row, attempt);
    }
  }

  /** Rows are added in input order, exactly those whose createRow and `addComponents`
      succeeded, when no exception escapes the loop (lines 59-66). */
  lemma {:induction false} RowsInOrder(rows: seq<JsValue>, attempt: JsValue -> Run<ActionRow>)
    requires RowsLoop(rows, attempt).escape.None?
    ensures RowsLoop(rows, attempt).added == Survivors(rows, attempt)
    decreases |rows|
  {
    if rows != [] {
      var init := rows[..|rows| - 1];
      assert init + [rows[|rows| - 1]] == rows;
      RowsInOrder(init, attempt);
      SurvivorsAppend(init, rows[|rows| - 1], attempt);
    }
  }

  /** The modal never gets more rows than it was given descriptions. */
  lemma {:induction false} RowsLoopBound(rows: seq<JsValue>, attempt: JsValue -> Run<ActionRow>)
    ensures |RowsLoop(rows, attempt).added| <= |rows|
    decreases |rows|
  {
    if rows != [] {
      RowsLoopBound(rows[..|rows| - 1], attempt);
    }
  }

  /** The number of "Error adding row" diagnostics in a log. */
  function SkippedCount(log: seq<Diagnostic>): nat
    decreases |log|
  {
    if log == [] then 0
    else SkippedCount(log[..|log| - 1]) + (if log[|log| - 1].context.AddingRow? then 1 else 0)
  }

  lemma {:induction false} SkippedCountAppend(a: seq<Diagnostic>, b: seq<Diagnostic>)
    ensures SkippedCount(a + b) == SkippedCount(a) + SkippedCount(b)
    decreases |b|
  {
    if b == [] {
      assert a + b == a;
    } else {
      assert (a + b)[..|a + b| - 1] == a + b[..|b| - 1];
      SkippedCountAppend(a, b[..|b| - 1]);
    }
  }

  /** The context messages createRow's own catches log with (lines 97, 108, 114, 121, 128, 146,
      156, 166). */
  const ROW_CONTEXTS: set<Context> := {
    CUSTOM_ID_MISSING.context, CUSTOM_ID_TOO_LONG.context, CUSTOM_ID_CONTEXT, LABEL_MISSING.context,
    LABEL_TOO_LONG.context, STYLE_INVALID.context, PLACEHOLDER_TOO_LONG.context, REQUIRED_INVALID.context }

  /** A log whose diagnostics all carry one of the context messages `cs`. */
  predicate ContextsIn(log: seq<Diagnostic>, cs: set<Context>) {
    forall i :: 0 <= i < |log| ==> log[i].context in cs
  }

  /** A log whose diagnostics all carry one of createRow's own context messages. */
  predicate RowContexts(log: seq<Diagnostic>) {
    forall i :: 0 <= i < |log| ==> log[i].context in ROW_CONTEXTS
  }

  lemma {:induction false} RowContextsCount(log: seq<Diagnostic>)
    requires RowContexts(log)
    ensures SkippedCount(log) == 0
    decreases |log|
  {
    if log != [] {
      RowContextsCount(log[..|log| - 1]);
    }
  }

  lemma RowFromContexts(rc: RowChecks, rejects: SdkCall -> bool)
    requires RowContexts(rc.customIdCheck.log) && RowContexts(rc.labelCheck.log) && RowContexts(rc.styleCheck.log)
    requires RowContexts(rc.placeholderCheck.log) && RowContexts(rc.requiredCheck.log)
    ensures RowContexts(RowFrom(rc, rejects).log)
  {
    DiagnosticOrder(rc, rejects);
  }

  /** Everything createRow logs names one of its own checks. */
  lemma RowLogContexts(textInputObj: JsValue, rejects: SdkCall -> bool)
    ensures RowContexts(RowSpec(textInputObj, rejects).log)
  {
    if !textInputObj.IsNullish() && !rejects(NewTextInput) {
      var rc := ChecksOf(textInputObj, rejects);
      CustomIdCheckBounds(Prop(textInputObj, "customID"), rejects);
      LabelCheckBounds(Prop(textInputObj, "label"), rejects);
      StyleCheckBounds(OrDefault(Prop(textInputObj, "style"), Str(SHORT_STYLE)), rejects);
      PlaceholderCheckBounds(Prop(textInputObj, "placeholder"), rejects);
      RequiredCheckBounds(OrDefault(Prop(textInputObj, "required"), Bool(false)), rejects);
      RowFromContexts(rc, rejects);
    }
  }

  /** createModal's try body logs only what createRow logs, and throws for a row description
      that is undefined or null, whether or not the modal was built. */
  lemma AttemptFacts(built: bool, row: JsValue, rejects: SdkCall -> bool)
    ensures RowContexts(Attempts(built, rejects)(row).log)
    ensures row.IsNullish() ==> Attempts(built, rejects)(row).outcome.Threw?
  {
    if built {
      RowLogContexts(row, rejects);
    }
  }

  /** A row description whose try body throws is skipped with exactly one "Error adding row"
      diagnostic, so skipped and added rows together account for every description. */
  lemma {:induction false} SkippedRowsLogged(rows: seq<JsValue>, attempt: JsValue -> Run<ActionRow>)
    requires forall row: JsValue :: RowContexts(attempt(row).log)
    requires RowsLoop(rows, attempt).escape.None?
    ensures SkippedCount(RowsLoop(rows, attempt).log) + |RowsLoop(rows, attempt).added| == |rows|
    decreases |rows|
  {
    if rows != [] {
      var init, row := rows[..|rows| - 1], rows[|rows| - 1];
      var st := RowsLoop(init, attempt);
      SkippedRowsLogged(init, attempt);
      var a := attempt(row);
      RowContextsCount(a.log);
      SkippedCountAppend(st.log, a.log);
      if a.outcome.Threw? {
        var d := Diagnostic(a.outcome.error, AddingRow(Prop(row, "customID")));
        SkippedCountAppend(st.log + a.log, [d]);
        assert SkippedCount([d]) == 1 by {
          assert [d][..0] == [];
        }
      }
    }
  }

  /** What the loop reports for one row description that is not undefined or null: its try
      body's diagnostics, then one "Error adding row <row.customID> to modal" when it threw. */
  function RowEntry(row: JsValue, a: Run<ActionRow>): seq<Diagnostic>
    requires !row.IsNullish()
  {
    a.log + (if a.outcome.Threw? then [Diagnostic(a.outcome.error, AddingRow(Prop(row, "customID")))] else [])
  }

  /** The log of lines 59-66 read front to back, for row descriptions none of which is
      undefined or null. */
  function LoopLog(rows: seq<JsValue>, attempt: JsValue -> Run<ActionRow>): seq<Diagnostic>
    requires forall i :: 0 <= i < |rows| ==> !rows[i].IsNullish()
    decreases |rows|
  {
    if rows == [] then [] else RowEntry(rows[0], attempt(rows[0])) + LoopLog(rows[1..], attempt)
  }

  /** The console lines of lines 59-66 read front to back: every try body's, in order. */
  function LoopConsole(rows: seq<JsValue>, attempt: JsValue -> Run<ActionRow>): seq<ConsoleLine>
    decreases |rows|
  {
    if rows == [] then [] else attempt(rows[0]).console + LoopConsole(rows[1..], attempt)
  }

  lemma {:induction false} LoopLogAppend(rows: seq<JsValue>, row: JsValue, attempt: JsValue -> Run<ActionRow>)
    requires forall i :: 0 <= i < |rows| ==> !rows[i].IsNullish()
    requires !row.IsNullish()
    ensures forall i :: 0 <= i < |rows + [row]| ==> !(rows + [row])[i].IsNullish()
    ensures LoopLog(rows + [row], attempt) == LoopLog(rows, attempt) + RowEntry(row, attempt(row))
    ensures LoopConsole(rows + [row], attempt) == LoopConsole(rows, attempt) + attempt(row).console
    decreases |rows|
  {
    if rows == [] {
      assert [row][1..] == [];
    } else {
      assert (rows + [row])[0] == rows[0];
      assert (rows + [row])[1..] == rows[1..] + [row];
      LoopLogAppend(rows[1..], row, attempt);
    }
  }

  /** When no row description is undefined or null, nothing escapes the loop and it reports,
      row after row in input order, each try body's diagnostics followed, for a row that threw,
      by exactly one "Error adding row" diagnostic naming that row's customID (line 64). */
  lemma {:induction false} LoopReportsEveryRow(rows: seq<JsValue>, attempt: JsValue -> Run<ActionRow>)
    requires forall i :: 0 <= i < |rows| ==> !rows[i].IsNullish()
    ensures RowsLoop(rows, attempt).escape.None?
    ensures RowsLoop(rows, attempt).log == LoopLog(rows, attempt)
    ensures RowsLoop(rows, attempt).console == LoopConsole(rows, attempt)
    decreases |rows|
  {
    if rows != [] {
      var init, last := rows[..|rows| - 1], rows[|rows| - 1];
      assert forall i :: 0 <= i < |init| ==> init[i] == rows[i];
      LoopReportsEveryRow(init, attempt);
      LoopLogAppend(init, last, attempt);
      assert init + [last] == rows;
    }
  }

  /** An exception escapes the loop exactly when some row description is undefined or null:
      the catch handler's `row.customID` (line 64) then throws. Every other failure is caught. */
  lemma {:induction false} EscapeIffNullishRow(rows: seq<JsValue>, attempt: JsValue -> Run<ActionRow>)
    requires forall row: JsValue :: row.IsNullish() ==> attempt(row).outcome.Threw?
    ensures RowsLoop(rows, attempt).escape.Some? <==> exists i :: 0 <= i < |rows| && rows[i].IsNullish()
    ensures RowsLoop(rows, attempt).escape.Some? ==>
              RowsLoop(rows, attempt).escape == Some(TypeError(PropertyOfNullish("customID")))
    decreases |rows|
  {
    if rows != [] {
      var init := rows[..|rows| - 1];
      EscapeIffNullishRow(init, attempt);
      if exists i :: 0 <= i < |init| && init[i].IsNullish() {
        var i :| 0 <= i < |init| && init[i].IsNullish();
        assert rows[i] == init[i];
      }
      if exists i :: 0 <= i < |rows| && rows[i].IsNullish() {
        var i :| 0 <= i < |rows| && rows[i].IsNullish();
        if i < |rows| - 1 {
          assert init[i] == rows[i];
        }
      }
    }
  }

  /** When the modal could not be built, createRow is never reached: each row description
      gives one "Error adding row" diagnostic for the failed `addComponents` lookup, nothing is
      printed and nothing is added. */
  lemma {:induction false} UnbuiltModal(rows: seq<JsValue>, rejects: SdkCall -> bool)
    requires forall i :: 0 <= i < |rows| ==> !rows[i].IsNullish()
    ensures var st := RowsLoop(rows, Attempts(false, rejects));
      && st == LoopState(st.log, [], [], None)
      && |st.log| == |rows|
      && forall i :: 0 <= i < |rows| ==>
           st.log[i] == Diagnostic(TypeError(PropertyOfNullish("addComponents")), AddingRow(Prop(rows[i], "customID")))
    decreases |rows|
  {
    if rows != [] {
      UnbuiltModal(rows[..|rows| - 1], rejects);
    }
  }

  /** The loop logs only row diagnostics: never one with the modal's context. */
  lemma {:induction false} LoopContexts(rows: seq<JsValue>, attempt: JsValue -> Run<ActionRow>)
    requires forall row: JsValue :: RowContexts(attempt(row).log)
    ensures forall i :: 0 <= i < |RowsLoop(rows, attempt).log| ==> RowsLoop(rows, attempt).log[i].context != MODAL_CONTEXT
    decreases |rows|
  {
    if rows != [] {
      LoopContexts(rows[..|rows| - 1], attempt);
      assert RowContexts(attempt(rows[|rows| - 1]).log);
    }
  }

  /** Lines 51-68 keep the log that precedes them and add no modal-level diagnostic to it. */
  lemma ModalFromLog(prefix: seq<Diagnostic>, construct: Completion<Modal>, rows: JsValue, rejects: SdkCall -> bool)
    requires construct.Threw? ==> construct.error.SdkError?
    ensures var log := ModalFrom(prefix, construct, rows, rejects).log;
      |prefix| <= |log| && log[..|prefix|] == prefix && MODAL_PROPERTIES_MISSING !in log[|prefix|..]
  {
    var logged := prefix + (if construct.Threw? then [Diagnostic(construct.error, MODAL_CONTEXT)] else []);
    assert MODAL_PROPERTIES_MISSING !in logged[|prefix|..];
    if rows.Arr? {
      var attempt := Attempts(construct.Returned?, rejects);
      forall row | true
        ensures RowContexts(attempt(row).log)
      {
        AttemptFacts(construct.Returned?, row, rejects);
      }
      LoopContexts(rows.elems, attempt);
      var log := logged + RowsLoop(rows.elems, attempt).log;
      assert log[|prefix|..] == logged[|prefix|..] + RowsLoop(rows.elems, attempt).log;
    }
  }

  /** A modal that createModal returns holds, in input order, exactly the rows whose createRow
      and `addComponents` succeeded, and no more rows than there were row descriptions
      (lines 54-68). */
  lemma ModalRows(modalObj: JsValue, rejects: SdkCall -> bool)
    ensures var spec := ModalSpec(modalObj, rejects);
      spec.outcome.Returned? && spec.outcome.value.Some? ==>
        && !modalObj.IsNullish() && Prop(modalObj, "rows").Arr?
        && spec.outcome.value.value.components == Survivors(Prop(modalObj, "rows").elems, Attempts(true, rejects))
        && |spec.outcome.value.value.components| <= |Prop(modalObj, "rows").elems|
  {
    if !modalObj.IsNullish() && Prop(modalObj, "rows").Arr? {
      var elems := Prop(modalObj, "rows").elems;
      var construct := ConstructModal(Prop(modalObj, "customID"), Prop(modalObj, "title"), rejects);
      if construct.Returned? && RowsLoop(elems, Attempts(true, rejects)).escape.None? {
        RowsInOrder(elems, Attempts(true, rejects));
        RowsLoopBound(elems, Attempts(true, rejects));
      }
    }
  }

  /** Modal-level check (lines 44-49): when customID, title or rows is undefined, exactly one
      combined diagnostic is logged, first; otherwise it is never logged. */
  lemma ModalPropertiesCheck(modalObj: JsValue, rejects: SdkCall -> bool)
    requires !modalObj.IsNullish()
    ensures var spec := ModalSpec(modalObj, rejects);
      var missing := !IsDefined(Prop(modalObj, "customID")) || !IsDefined(Prop(modalObj, "title"))
                     || !IsDefined(Prop(modalObj, "rows"));
      && (missing ==> |spec.log| > 0 && spec.log[0] == MODAL_PROPERTIES_MISSING
                      && MODAL_PROPERTIES_MISSING !in spec.log[1..])
      && (!missing ==> MODAL_PROPERTIES_MISSING !in spec.log)
  {
    var customID, title, rows := Prop(modalObj, "customID"), Prop(modalObj, "title"), Prop(modalObj, "rows");
    var checked := if !IsDefined(customID) || !IsDefined(title) || !IsDefined(rows) then [MODAL_PROPERTIES_MISSING] else [];
    var construct := ConstructModal(customID, title, rejects);
    assert ModalSpec(modalObj, rejects) == ModalFrom(checked, construct, rows, rejects);
    ModalFromLog(checked, construct, rows, rejects);
    var log := ModalFrom(checked, construct, rows, rejects).log;
    assert checked == [] ==> log[|checked|..] == log;
  }

  /** There is no early return after the modal-level diagnostic: a modal without a title is
      still built, with `setTitle(undefined)` recorded, and its rows are processed. */
  lemma MissingTitleStillBuilt(modalObj: JsValue, id: string, rejects: SdkCall -> bool)
    requires modalObj.Obj? && Prop(modalObj, "customID") == Str(id) && Prop(modalObj, "title") == Undefined
    requires Prop(modalObj, "rows") == Arr([])
    requires forall call :: !rejects(call)
    ensures ModalSpec(modalObj, rejects) == Run([MODAL_PROPERTIES_MISSING], [], Returned(Some(Modal(Some(Str(id)), Some(Undefined), []))))
  {
  }

  /** When building the modal throws (line 54), createModal returns undefined after one
      diagnostic for the failure and one per row description. */
  lemma ModalNotBuilt(modalObj: JsValue, rejects: SdkCall -> bool)
    requires !modalObj.IsNullish() && Prop(modalObj, "rows").Arr?
    requires ConstructModal(Prop(modalObj, "customID"), Prop(modalObj, "title"), rejects).Threw?
    requires forall i :: 0 <= i < |Prop(modalObj, "rows").elems| ==> !Prop(modalObj, "rows").elems[i].IsNullish()
    ensures var spec := ModalSpec(modalObj, rejects);
      var checked := if IsDefined(Prop(modalObj, "customID")) && IsDefined(Prop(modalObj, "title")) then 0 else 1;
      && spec.outcome == Returned(None) && spec.console == []
      && |spec.log| == checked + 1 + |Prop(modalObj, "rows").elems|
  {
    UnbuiltModal(Prop(modalObj, "rows").elems, rejects);
  }

  /** `rows.forEach` (line 59) is not guarded: rows that are not an array make createModal throw,
      after the modal-level diagnostics, which for undefined rows include the combined one. */
  lemma RowsNotAnArray(modalObj: JsValue, rejects: SdkCall -> bool)
    requires !modalObj.IsNullish() && !Prop(modalObj, "rows").Arr?
    ensures var spec := ModalSpec(modalObj, rejects);
      && spec.console == []
      && (Prop(modalObj, "rows").IsNullish() ==> spec.outcome == Threw(TypeError(PropertyOfNullish("forEach"))))
      && (Prop(modalObj, "rows") == Undefined ==> |spec.log| > 0 && spec.log[0] == MODAL_PROPERTIES_MISSING)
      && (!Prop(modalObj, "rows").IsNullish() ==> spec.outcome == Threw(TypeError(NotAFunction("forEach"))))
  {
  }

  /** Three row descriptions of which the second fails: the modal gets the first and third rows
      in that order, and one diagnostic names the second row's customID. */
  lemma MiddleRowFails(rows: seq<JsValue>, attempt: JsValue -> Run<ActionRow>)
    requires |rows| == 3 && !rows[1].IsNullish()
    requires forall row: JsValue :: RowContexts(attempt(row).log)
    requires attempt(rows[0]).outcome.Returned? && attempt(rows[1]).outcome.Threw? && attempt(rows[2]).outcome.Returned?
    ensures var st := RowsLoop(rows, attempt);
      && st.escape.None?
      && st.added == [attempt(rows[0]).outcome.value, attempt(rows[2]).outcome.value]
      && SkippedCount(st.log) == 1
      && Diagnostic(attempt(rows[1]).outcome.error, AddingRow(Prop(rows[1], "customID"))) in st.log
  {
    var a0, a1, a2 := attempt(rows[0]), attempt(rows[1]), attempt(rows[2]);
    var d := Diagnostic(a1.outcome.error, AddingRow(Prop(rows[1], "customID")));
    assert rows[..1][..0] == [] && rows[..2][..1] == rows[..1] && rows[..3][..2] == rows[..2] && rows[..3] == rows;
    assert rows[..1][0] == rows[0] && rows[..2][1] == rows[1];
    assert RowsLoop(rows[..1], attempt) == LoopState(a0.log, a0.console, [a0.outcome.value], None);
    var s2 := RowsLoop(rows[..2], attempt);
    assert s2 == LoopState(a0.log + a1.log + [d], a0.console + a1.console, [a0.outcome.value], None);
    var s3 := RowsLoop(rows, attempt);
    assert d in s3.log by {
      assert s3.log[|a0.log| + |a1.log|] == d;
    }
    SkippedRowsLogged(rows, attempt);
  }
}
