/** src/djs/functions/create/createEmbed.js: `createEmbed`, which copies the truthy properties
    of an embed description onto a new EmbedBuilder and adds its fields, and the module-level
    fallback `errEmbed` it returns whenever the description is invalid or a stage fails.

    As for createModal, the behaviour is given by a specification function (EmbedSpec), built
    stage by stage, and by methods that do what the source does on builder objects and are
    proved to agree with it. The module's `logError` may itself throw; every call is guarded,
    and whether it throws on a diagnostic is the parameter `logFails`. */
module CreateEmbed {
  import opened JsValues
  import opened DiscordData
  import opened Errors
  import opened DiscordBuilders

  const INVALID_MESSAGE := "Invalid properties were given to create the embed"
  const INVALID_PROPERTIES := Diagnostic(Error(INVALID_MESSAGE), Text(INVALID_MESSAGE))
  const CREATE_CONTEXT := Text("Error creating EmbedBuilder instance")
  const PROPERTIES_CONTEXT := Text("Error setting properties of the embed")
  const FIELDS_CONTEXT := Text("Error adding fields to the embed")

  // The fallback embed of lines 33-36.
  const ERR_COLOR := Str("#FF0000")
  const ERR_TITLE := Str("\U{2757}\U{FE0F} Error")
  const ERR_DESCRIPTION := Str(INVALID_MESSAGE)
  const ERR_EMBED := EMPTY_EMBED.(color := Some(ERR_COLOR), title := Some(ERR_TITLE), description := Some(ERR_DESCRIPTION))

  /** What createEmbed returns: the embed it built, or the shared fallback `errEmbed`. */
  datatype EmbedOutcome = Built(embed: Embed) | Fallback

  /** `new EmbedBuilder().setColor(..).setTitle(..).setDescription(..)` (lines 33-36), run once
      when the module is loaded. */
  function ErrEmbedSpec(rejects: SdkCall -> bool): Completion<Embed> {
    if rejects(NewEmbed) then Threw(SdkError(NewEmbed))
    else if rejects(EmbedSetColor(ERR_COLOR)) then Threw(SdkError(EmbedSetColor(ERR_COLOR)))
    else if rejects(EmbedSetTitle(ERR_TITLE)) then Threw(SdkError(EmbedSetTitle(ERR_TITLE)))
    else if rejects(EmbedSetDescription(ERR_DESCRIPTION)) then Threw(SdkError(EmbedSetDescription(ERR_DESCRIPTION)))
    else Returned(EMPTY_EMBED.Apply(EmbedSetColor(ERR_COLOR)).Apply(EmbedSetTitle(ERR_TITLE)).Apply(EmbedSetDescription(ERR_DESCRIPTION)))
  }

  /** The condition of line 41, `!obj.title && !obj.description && !obj.image && !obj.fields.length`:
      whether the description is invalid, or the TypeError it throws. `fields` is read only
      when the first three are all falsy. */
  function InvalidCheck(obj: JsValue): Completion<bool> {
    if obj.IsNullish() then Threw(TypeError(PropertyOfNullish("title")))
    else if Prop(obj, "title").Truthy() || Prop(obj, "description").Truthy() || Prop(obj, "image").Truthy() then Returned(false)
    else
      var fields := Prop(obj, "fields");
      if fields.IsNullish() then Threw(TypeError(PropertyOfNullish("length")))
      else Returned(!Prop(fields, "length").Truthy())
  }

  /** A guarded `logError(d)` followed by `return errEmbed`: the diagnostic is logged, or, when
      logging it throws, the failure goes to `console.error`. */
  function Report(d: Diagnostic, logFails: Diagnostic -> bool): Run<EmbedOutcome> {
    if logFails(d) then Run([], [ReportFailed(d)], Returned(Fallback))
    else Run([d], [], Returned(Fallback))
  }

  /** One `if (cond) embed.setX(..)` of lines 66-72, after the earlier ones: nothing happens
      once a setter has thrown or when `cond` is false. */
  function SetIf(r: Completion<Embed>, cond: bool, call: SdkCall, rejects: SdkCall -> bool): Completion<Embed> {
    if r.Threw? || !cond then r
    else if rejects(call) then Threw(SdkError(call))
    else Returned(r.value.Apply(call))
  }

  /** The `footer` or `author` call of lines 69 and 72, whose arguments are read from a value
      that is truthy. */
  function FooterCall(footer: JsValue): SdkCall
    requires footer.Truthy()
  {
    EmbedSetFooter(Prop(footer, "text"), Prop(footer, "iconURL"))
  }

  function AuthorCall(author: JsValue): SdkCall
    requires author.Truthy()
  {
    EmbedSetAuthor(Prop(author, "name"), Prop(author, "iconURL"), Prop(author, "url"))
  }

  /** Lines 66-68: the conditional setters of title, description and color, on the new embed. */
  function TextSetters(obj: JsValue, rejects: SdkCall -> bool): Completion<Embed>
    requires !obj.IsNullish()
  {
    var title, description, color := Prop(obj, "title"), Prop(obj, "description"), Prop(obj, "color");
    var r1 := SetIf(Returned(EMPTY_EMBED), title.Truthy(), EmbedSetTitle(title), rejects);
    var r2 := SetIf(r1, description.Truthy(), EmbedSetDescription(description), rejects);
    SetIf(r2, color.Truthy(), EmbedSetColor(color), rejects)
  }

  /** Lines 69-72: the conditional setters of footer, thumbnail, image and author, after `r`. */
  function MediaSetters(r: Completion<Embed>, obj: JsValue, rejects: SdkCall -> bool): Completion<Embed>
    requires !obj.IsNullish()
  {
    MediaChain(r, Prop(obj, "footer"), Prop(obj, "thumbnail"), Prop(obj, "image"), Prop(obj, "author"), rejects)
  }

  /** The setters of lines 69-72 on the four values they read from the properties object. */
  function MediaChain(r: Completion<Embed>, footer: JsValue, thumbnail: JsValue, image: JsValue, author: JsValue,
                      rejects: SdkCall -> bool): Completion<Embed>
  {
    var r4 := if footer.Truthy() then SetIf(r, true, FooterCall(footer), rejects) else r;
    var r5 := SetIf(r4, thumbnail.Truthy(), EmbedSetThumbnail(thumbnail), rejects);
    var r6 := SetIf(r5, image.Truthy(), EmbedSetImage(image), rejects);
    if author.Truthy() then SetIf(r6, true, AuthorCall(author), rejects) else r6
  }

  /** Lines 65-72: the seven conditional setters, in order, on the new embed. */
  function PropertiesSpec(obj: JsValue, rejects: SdkCall -> bool): Completion<Embed>
    requires !obj.IsNullish()
  {
    MediaSetters(TextSetters(obj, rejects), obj, rejects)
  }

  /** How far the setters of lines 66-72 have got: `o` is how the last one ended, `data` the
      builder's state, and `r` the same point in PropertiesSpec. */
  ghost predicate Tracks(o: Outcome, data: Embed, r: Completion<Embed>) {
    (o.Normal? <==> r.Returned?) && (r.Returned? ==> data == r.value) && (r.Threw? ==> o.error == r.error)
  }

  /** The field `addField` receives for one element of `fields` (line 86). */
  function FieldOf(field: JsValue): EmbedField
    requires !field.IsNullish()
  {
    EmbedField(Prop(field, "name"), Prop(field, "value"), Prop(field, "inline"))
  }

  /** The `addField` call of line 86 for one element of `fields`. */
  function FieldCall(field: JsValue): SdkCall
    requires !field.IsNullish()
  {
    var f := FieldOf(field);
    EmbedAddField(f.name, f.value, f.inline)
  }

  /** One iteration of the `forEach` of lines 85-87: reading `field.name` throws for an
      undefined or null element. */
  function AddFieldTo(e: Embed, field: JsValue, rejects: SdkCall -> bool): Completion<Embed> {
    if field.IsNullish() then Threw(TypeError(PropertyOfNullish("name")))
    else
      var call := FieldCall(field);
      if rejects(call) then Threw(SdkError(call)) else Returned(e.Apply(call))
  }

  /** The `forEach` over `elems`, stopping at the first exception. */
  function AddFields(e: Embed, elems: seq<JsValue>, rejects: SdkCall -> bool): Completion<Embed>
    decreases |elems|
  {
    if elems == [] then Returned(e)
    else match AddFields(e, elems[..|elems| - 1], rejects)
      case Threw(err) => Threw(err)
      case Returned(e1) => AddFieldTo(e1, elems[|elems| - 1], rejects)
  }

  /** Lines 83-88: `fields.length` throws when `fields` is undefined or null; a truthy length
      on a value that is not an array finds no `forEach` to call. */
  function FieldsSpec(e: Embed, fields: JsValue, rejects: SdkCall -> bool): Completion<Embed> {
    if fields.IsNullish() then Threw(TypeError(PropertyOfNullish("length")))
    else if !Prop(fields, "length").Truthy() then Returned(e)
    else if !fields.Arr? then Threw(TypeError(NotAFunction("forEach")))
    else AddFields(e, fields.elems, rejects)
  }

  /** createEmbed (lines 38-100): the validity check, then the three stages, each of which
      falls back to `errEmbed` with one report when it throws. */
  function EmbedSpec(obj: JsValue, rejects: SdkCall -> bool, logFails: Diagnostic -> bool): Run<EmbedOutcome> {
    match InvalidCheck(obj)
    case Threw(e) => Run([], [], Threw(e))
    case Returned(invalid) =>
      if invalid then Report(INVALID_PROPERTIES, logFails)
      else if rejects(NewEmbed) then Report(Diagnostic(SdkError(NewEmbed), CREATE_CONTEXT), logFails)
      else match PropertiesSpec(obj, rejects)
        case Threw(e) => Report(Diagnostic(e, PROPERTIES_CONTEXT), logFails)
        case Returned(withProperties) =>
          match FieldsSpec(withProperties, Prop(obj, "fields"), rejects)
          case Threw(e) => Report(Diagnostic(e, FIELDS_CONTEXT), logFails)
          case Returned(embed) => Run([], [], Returned(Built(embed)))
  }

  /** The module-level `errEmbed` of lines 33-36. */
  method MakeErrEmbed(rejects: SdkCall -> bool) returns (result: Completion<EmbedBuilder>)
    ensures match ErrEmbedSpec(rejects)
      case Threw(e) => result == Threw(e)
      case Returned(data) => result.Returned? && fresh(result.value) && result.value.data == data
  {
    if rejects(NewEmbed) {
      return Threw(SdkError(NewEmbed));
    }
    var errEmbed := new EmbedBuilder();
    var o := errEmbed.SetColor(ERR_COLOR, rejects);
    if o.Normal? {
      o := errEmbed.SetTitle(ERR_TITLE, rejects);
    }
    if o.Normal? {
      o := errEmbed.SetDescription(ERR_DESCRIPTION, rejects);
    }
    if o.Raised? {
      return Threw(o.error);
    }
    result := Returned(errEmbed);
  }

  /** One `if (cond) embed.setX(..)` of lines 66-72 on the builder, skipped once a setter
      has thrown. */
  method SetIfStep(embed: EmbedBuilder, ghost r: Completion<Embed>, o: Outcome, cond: bool, call: SdkCall, rejects: SdkCall -> bool)
    returns (next: Outcome)
    requires Tracks(o, embed.data, r)
    modifies embed
    ensures Tracks(next, embed.data, SetIf(r, cond, call, rejects))
  {
    next := o;
    if o.Normal? && cond {
      next := embed.Perform(call, rejects);
    }
  }

  /** Lines 66-68 on `embed`, a builder nothing has been set on: the setters of the truthy
      text properties, in order, until one throws. */
  method SetTextProperties(embed: EmbedBuilder, obj: JsValue, rejects: SdkCall -> bool) returns (o: Outcome)
    requires !obj.IsNullish()
    requires embed.data == EMPTY_EMBED
    modifies embed
    ensures Tracks(o, embed.data, TextSetters(obj, rejects))
  {
    var title, description, color := Prop(obj, "title"), Prop(obj, "description"), Prop(obj, "color");
    ghost var r: Completion<Embed> := Returned(EMPTY_EMBED);
    o := Normal;
    o := SetIfStep(embed, r, o, title.Truthy(), EmbedSetTitle(title), rejects);
    r := SetIf(r, title.Truthy(), EmbedSetTitle(title), rejects);
    o := SetIfStep(embed, r, o, description.Truthy(), EmbedSetDescription(description), rejects);
    r := SetIf(r, description.Truthy(), EmbedSetDescription(description), rejects);
    o := SetIfStep(embed, r, o, color.Truthy(), EmbedSetColor(color), rejects);
  }

  /** Lines 69-72 on `embed`, whose setters so far have ended as `o` and `r` record: the
      setters of the truthy media properties, in order, until one throws. */
  method SetMediaProperties(embed: EmbedBuilder, ghost r: Completion<Embed>, o: Outcome, obj: JsValue, rejects: SdkCall -> bool)
    returns (next: Outcome)
    requires !obj.IsNullish()
    requires Tracks(o, embed.data, r)
    modifies embed
    ensures Tracks(next, embed.data, MediaSetters(r, obj, rejects))
  {
    var footer, thumbnail, image, author := Prop(obj, "footer"), Prop(obj, "thumbnail"), Prop(obj, "image"), Prop(obj, "author");
    ghost var s := r;
    next := o;
    if footer.Truthy() {
      next := SetIfStep(embed, s, next, true, FooterCall(footer), rejects);
      s := SetIf(s, true, FooterCall(footer), rejects);
    }
    next := SetIfStep(embed, s, next, thumbnail.Truthy(), EmbedSetThumbnail(thumbnail), rejects);
    s := SetIf(s, thumbnail.Truthy(), EmbedSetThumbnail(thumbnail), rejects);
    next := SetIfStep(embed, s, next, image.Truthy(), EmbedSetImage(image), rejects);
    s := SetIf(s, image.Truthy(), EmbedSetImage(image), rejects);
    if author.Truthy() {
      next := SetIfStep(embed, s, next, true, AuthorCall(author), rejects);
    }
  }

  /** Lines 65-72 on `embed`, a builder nothing has been set on: the setters of the truthy
      properties, in order, until one throws. */
  method SetProperties(embed: EmbedBuilder, obj: JsValue, rejects: SdkCall -> bool) returns (failure: Option<JsError>)
    requires !obj.IsNullish()
    requires embed.data == EMPTY_EMBED
    modifies embed
    ensures var r := PropertiesSpec(obj, rejects);
      && failure == (if r.Threw? then Some(r.error) else None)
      && (r.Returned? ==> embed.data == r.value)
  {
    var o := SetTextProperties(embed, obj, rejects);
    o := SetMediaProperties(embed, TextSetters(obj, rejects), o, obj, rejects);
    failure := if o.Raised? then Some(o.error) else None;
  }

  /** Lines 83-88 on `embed`: the `addField` loop over `fields`. */
  method AddFieldsStage(embed: EmbedBuilder, fields: JsValue, rejects: SdkCall -> bool) returns (failure: Option<JsError>)
    modifies embed
    ensures var r := FieldsSpec(old(embed.data), fields, rejects);
      && failure == (if r.Threw? then Some(r.error) else None)
      && (r.Returned? ==> embed.data == r.value)
  {
    if fields.IsNullish() {
      return Some(TypeError(PropertyOfNullish("length")));
    }
    if !Prop(fields, "length").Truthy() {
      return None;
    }
    if !fields.Arr? {
      return Some(TypeError(NotAFunction("forEach")));
    }
    var elems := fields.elems;
    var i := 0;
    while i < |elems|
      invariant 0 <= i <= |elems|
      invariant AddFields(old(embed.data), elems[..i], rejects) == Returned(embed.data)
    {
      AddFieldsStep(old(embed.data), elems, i, rejects);
      var field := elems[i];
      if field.IsNullish() {
        AddFieldsThrown(old(embed.data), elems, i + 1, rejects);
        return Some(TypeError(PropertyOfNullish("name")));
      }
      var f := FieldOf(field);
      var o := embed.AddField(f.name, f.value, f.inline, rejects);
      if o.Raised? {
        AddFieldsThrown(old(embed.data), elems, i + 1, rejects);
        return Some(o.error);
      }
      i := i + 1;
    }
    assert elems[..i] == elems;
    failure := None;
  }

  /** One more element of the `forEach`, after the earlier ones have returned `e1`: it throws
      for a nullish element or a rejected `addField`, and otherwise appends its field. */
  lemma AddFieldsStep(e: Embed, elems: seq<JsValue>, i: nat, rejects: SdkCall -> bool)
    requires i < |elems|
    ensures var r := AddFields(e, elems[..i], rejects);
      r.Returned? ==>
        AddFields(e, elems[..i + 1], rejects) ==
          if elems[i].IsNullish() then Threw(TypeError(PropertyOfNullish("name")))
          else if rejects(FieldCall(elems[i])) then Threw(SdkError(FieldCall(elems[i])))
          else Returned(r.value.(fields := r.value.fields + [FieldOf(elems[i])]))
  {
    assert elems[..i + 1][..i] == elems[..i];
  }

  /** Once an element has thrown, the later ones are not visited. */
  lemma {:induction false} AddFieldsThrown(e: Embed, elems: seq<JsValue>, k: nat, rejects: SdkCall -> bool)
    requires k <= |elems|
    requires AddFields(e, elems[..k], rejects).Threw?
    ensures AddFields(e, elems, rejects) == AddFields(e, elems[..k], rejects)
    decreases |elems| - k
  {
    if k < |elems| {
      assert elems[..k + 1][..k] == elems[..k];
      AddFieldsThrown(e, elems, k + 1, rejects);
    } else {
      assert elems[..k] == elems;
    }
  }

  /** createEmbed as the source runs it. `errEmbed` is the shared fallback object, returned
      itself on every fallback path; it is never modified. */
  method CreateEmbed(obj: JsValue, errEmbed: EmbedBuilder, rejects: SdkCall -> bool, logFails: Diagnostic -> bool)
    returns (log: seq<Diagnostic>, console: seq<ConsoleLine>, result: Completion<EmbedBuilder>)
    ensures var spec := EmbedSpec(obj, rejects, logFails);
      && log == spec.log && console == spec.console
      && match spec.outcome
         case Threw(e) => result == Threw(e)
         case Returned(Fallback) => result == Returned(errEmbed)
         case Returned(Built(data)) => result.Returned? && fresh(result.value) && result.value.data == data
  {
    var invalid := InvalidCheck(obj);
    if invalid.Threw? {
      return [], [], Threw(invalid.error);
    }
    var report: Run<EmbedOutcome>;
    if invalid.value {
      report := Report(INVALID_PROPERTIES, logFails);
      return report.log, report.console, Returned(errEmbed);
    }
    if rejects(NewEmbed) {
      report := Report(Diagnostic(SdkError(NewEmbed), CREATE_CONTEXT), logFails);
      return report.log, report.console, Returned(errEmbed);
    }
    var embed := new EmbedBuilder();
    var failure := SetProperties(embed, obj, rejects);
    if failure.Some? {
      report := Report(Diagnostic(failure.value, PROPERTIES_CONTEXT), logFails);
      return report.log, report.console, Returned(errEmbed);
    }
    failure := AddFieldsStage(embed, Prop(obj, "fields"), rejects);
    if failure.Some? {
      report := Report(Diagnostic(failure.value, FIELDS_CONTEXT), logFails);
      return report.log, report.console, Returned(errEmbed);
    }
    log, console, result := [], [], Returned(embed);
  }
}
