/** What createEmbed (src/djs/functions/create/createEmbed.js) guarantees, proved about its
    specification function EmbedSpec, which the method CreateEmbed is proved to follow. */
module CreateEmbedProperties {
  import opened JsValues
  import opened DiscordData
  import opened Errors
  import opened CreateEmbed

  /** The validity rule of line 41: a description is invalid exactly when title, description
      and image are all falsy and `fields` has a falsy length. `fields` is read only when the
      first three are falsy, so the check throws exactly for an undefined or null description,
      or for one whose title, description and image are falsy and whose `fields` is missing. */
  lemma ValidityRule(obj: JsValue)
    ensures var r := InvalidCheck(obj);
      r == Returned(true) <==>
        && !obj.IsNullish()
        && !Prop(obj, "title").Truthy() && !Prop(obj, "description").Truthy() && !Prop(obj, "image").Truthy()
        && !Prop(obj, "fields").IsNullish() && !Prop(Prop(obj, "fields"), "length").Truthy()
    ensures var r := InvalidCheck(obj);
      r.Threw? <==>
        || obj.IsNullish()
        || (&& !Prop(obj, "title").Truthy() && !Prop(obj, "description").Truthy() && !Prop(obj, "image").Truthy()
            && Prop(obj, "fields").IsNullish())
    ensures !obj.IsNullish() && (Prop(obj, "title").Truthy() || Prop(obj, "description").Truthy() || Prop(obj, "image").Truthy())
            ==> InvalidCheck(obj) == Returned(false)
  {
  }

  /** An invalid description (lines 41-49) gives the fallback with the one "Invalid properties"
      diagnostic, logged or, when logging it fails, printed; no embed is built. */
  lemma InvalidInputFallback(obj: JsValue, rejects: SdkCall -> bool, logFails: Diagnostic -> bool)
    requires InvalidCheck(obj) == Returned(true)
    ensures var spec := EmbedSpec(obj, rejects, logFails);
      && spec.outcome == Returned(Fallback)
      && (!logFails(INVALID_PROPERTIES) ==> spec.log == [INVALID_PROPERTIES] && spec.console == [])
      && (logFails(INVALID_PROPERTIES) ==> spec.log == [] && spec.console == [ReportFailed(INVALID_PROPERTIES)])
  {
  }

  /** The description with an empty title, description and image and an empty `fields` array
      is invalid. */
  lemma EmptyDescriptionIsInvalid(obj: JsValue)
    requires obj.Obj? && Prop(obj, "title") == Str("") && Prop(obj, "description") == Str("") && Prop(obj, "image") == Str("")
    requires Prop(obj, "fields") == Arr([])
    ensures InvalidCheck(obj) == Returned(true)
  {
  }

  /** Line 41 is outside every try: the TypeErrors it raises escape createEmbed, with nothing
      logged. */
  lemma ValidityCheckEscapes(obj: JsValue, rejects: SdkCall -> bool, logFails: Diagnostic -> bool)
    ensures obj.IsNullish() ==> EmbedSpec(obj, rejects, logFails) == Run([], [], Threw(TypeError(PropertyOfNullish("title"))))
    ensures && !obj.IsNullish()
            && !Prop(obj, "title").Truthy() && !Prop(obj, "description").Truthy() && !Prop(obj, "image").Truthy()
            && Prop(obj, "fields").IsNullish()
            ==> EmbedSpec(obj, rejects, logFails) == Run([], [], Threw(TypeError(PropertyOfNullish("length"))))
  {
  }

  /** Lines 65-72: the setters run to the end exactly when the SDK accepts every call made for
      a truthy property. */
  lemma SettersSucceed(obj: JsValue, rejects: SdkCall -> bool)
    requires !obj.IsNullish()
    ensures var title, description, color := Prop(obj, "title"), Prop(obj, "description"), Prop(obj, "color");
      var footer, thumbnail, image, author := Prop(obj, "footer"), Prop(obj, "thumbnail"), Prop(obj, "image"), Prop(obj, "author");
      PropertiesSpec(obj, rejects).Returned? <==>
        && (title.Truthy() ==> !rejects(EmbedSetTitle(title)))
        && (description.Truthy() ==> !rejects(EmbedSetDescription(description)))
        && (color.Truthy() ==> !rejects(EmbedSetColor(color)))
        && (footer.Truthy() ==> !rejects(FooterCall(footer)))
        && (thumbnail.Truthy() ==> !rejects(EmbedSetThumbnail(thumbnail)))
        && (image.Truthy() ==> !rejects(EmbedSetImage(image)))
        && (author.Truthy() ==> !rejects(AuthorCall(author)))
  {
    var title, description, color := Prop(obj, "title"), Prop(obj, "description"), Prop(obj, "color");
    var r1 := SetIf(Returned(EMPTY_EMBED), title.Truthy(), EmbedSetTitle(title), rejects);
    var r2 := SetIf(r1, description.Truthy(), EmbedSetDescription(description), rejects);
    SetIfOutcome(Returned(EMPTY_EMBED), title.Truthy(), EmbedSetTitle(title), rejects);
    SetIfOutcome(r1, description.Truthy(), EmbedSetDescription(description), rejects);
    SetIfOutcome(r2, color.Truthy(), EmbedSetColor(color), rejects);
    MediaSettersSucceed(TextSetters(obj, rejects), Prop(obj, "footer"), Prop(obj, "thumbnail"), Prop(obj, "image"), Prop(obj, "author"), rejects);
  }

  /** Lines 69-72 run to the end exactly when the earlier setters did and the SDK accepts every
      call made for a truthy media property. */
  lemma MediaSettersSucceed(r: Completion<Embed>, footer: JsValue, thumbnail: JsValue, image: JsValue, author: JsValue,
                            rejects: SdkCall -> bool)
    ensures MediaChain(r, footer, thumbnail, image, author, rejects).Returned? <==>
      && r.Returned?
      && (footer.Truthy() ==> !rejects(FooterCall(footer)))
      && (thumbnail.Truthy() ==> !rejects(EmbedSetThumbnail(thumbnail)))
      && (image.Truthy() ==> !rejects(EmbedSetImage(image)))
      && (author.Truthy() ==> !rejects(AuthorCall(author)))
  {
    var r4 := if footer.Truthy() then SetIf(r, true, FooterCall(footer), rejects) else r;
    var r5 := SetIf(r4, thumbnail.Truthy(), EmbedSetThumbnail(thumbnail), rejects);
    var r6 := SetIf(r5, image.Truthy(), EmbedSetImage(image), rejects);
    if footer.Truthy() {
      SetIfOutcome(r, true, FooterCall(footer), rejects);
    }
    SetIfOutcome(r4, thumbnail.Truthy(), EmbedSetThumbnail(thumbnail), rejects);
    SetIfOutcome(r5, image.Truthy(), EmbedSetImage(image), rejects);
    if author.Truthy() {
      SetIfOutcome(r6, true, AuthorCall(author), rejects);
    }
  }

  /** Lines 65-72: when no setter throws, each of title, description, color, footer,
      thumbnail, image and author is set if and only if it is truthy, to the value read from the
      description, and no field is added. */
  lemma TruthyCopying(obj: JsValue, rejects: SdkCall -> bool)
    requires !obj.IsNullish()
    requires PropertiesSpec(obj, rejects).Returned?
    ensures var title, description, color := Prop(obj, "title"), Prop(obj, "description"), Prop(obj, "color");
      var footer, thumbnail, image, author := Prop(obj, "footer"), Prop(obj, "thumbnail"), Prop(obj, "image"), Prop(obj, "author");
      var e := PropertiesSpec(obj, rejects).value;
      && e.title == (if title.Truthy() then Some(title) else None)
      && e.description == (if description.Truthy() then Some(description) else None)
      && e.color == (if color.Truthy() then Some(color) else None)
      && e.footer == (if footer.Truthy() then Some(Footer(Prop(footer, "text"), Prop(footer, "iconURL"))) else None)
      && e.thumbnail == (if thumbnail.Truthy() then Some(thumbnail) else None)
      && e.image == (if image.Truthy() then Some(image) else None)
      && e.author == (if author.Truthy() then Some(Author(Prop(author, "name"), Prop(author, "iconURL"), Prop(author, "url"))) else None)
      && e.fields == []
  {
    var r := TextSetters(obj, rejects);
    var footer, thumbnail, image, author := Prop(obj, "footer"), Prop(obj, "thumbnail"), Prop(obj, "image"), Prop(obj, "author");
    MediaSettersSucceed(r, footer, thumbnail, image, author, rejects);
    TextCopying(obj, rejects);
    MediaCopying(r.value, footer, thumbnail, image, author, rejects);
    MediaKeeps(r.value, footer, thumbnail, image, author, rejects);
  }

  /** Lines 66-68 set title, description and color exactly when they are truthy. */
  lemma TextCopying(obj: JsValue, rejects: SdkCall -> bool)
    requires !obj.IsNullish()
    ensures var title, description, color := Prop(obj, "title"), Prop(obj, "description"), Prop(obj, "color");
      TextSetters(obj, rejects).Returned? ==>
        TextSetters(obj, rejects).value
        == EMPTY_EMBED.(title := if title.Truthy() then Some(title) else None,
                        description := if description.Truthy() then Some(description) else None,
                        color := if color.Truthy() then Some(color) else None)
  {
    var title, description, color := Prop(obj, "title"), Prop(obj, "description"), Prop(obj, "color");
    var r1 := SetIf(Returned(EMPTY_EMBED), title.Truthy(), EmbedSetTitle(title), rejects);
    var r2 := SetIf(r1, description.Truthy(), EmbedSetDescription(description), rejects);
    SetIfOutcome(Returned(EMPTY_EMBED), title.Truthy(), EmbedSetTitle(title), rejects);
    SetIfOutcome(r1, description.Truthy(), EmbedSetDescription(description), rejects);
    SetIfOutcome(r2, color.Truthy(), EmbedSetColor(color), rejects);
  }

  /** Lines 69-72 set footer, thumbnail, image and author exactly when they are truthy. */
  lemma MediaCopying(e: Embed, footer: JsValue, thumbnail: JsValue, image: JsValue, author: JsValue, rejects: SdkCall -> bool)
    ensures var r := MediaChain(Returned(e), footer, thumbnail, image, author, rejects);
      r.Returned? ==>
        && r.value.footer == (if footer.Truthy() then Some(Footer(Prop(footer, "text"), Prop(footer, "iconURL"))) else e.footer)
        && r.value.thumbnail == (if thumbnail.Truthy() then Some(thumbnail) else e.thumbnail)
        && r.value.image == (if image.Truthy() then Some(image) else e.image)
        && r.value.author == (if author.Truthy() then Some(Author(Prop(author, "name"), Prop(author, "iconURL"), Prop(author, "url"))) else e.author)
  {
    var r4 := if footer.Truthy() then SetIf(Returned(e), true, FooterCall(footer), rejects) else Returned(e);
    var r5 := SetIf(r4, thumbnail.Truthy(), EmbedSetThumbnail(thumbnail), rejects);
    var r6 := SetIf(r5, image.Truthy(), EmbedSetImage(image), rejects);
    if footer.Truthy() {
      SetIfOutcome(Returned(e), true, FooterCall(footer), rejects);
    }
    SetIfOutcome(r4, thumbnail.Truthy(), EmbedSetThumbnail(thumbnail), rejects);
    SetIfOutcome(r5, image.Truthy(), EmbedSetImage(image), rejects);
    if author.Truthy() {
      SetIfOutcome(r6, true, AuthorCall(author), rejects);
    }
  }

  /** Lines 69-72 leave title, description, color and the fields as they were. */
  lemma MediaKeeps(e: Embed, footer: JsValue, thumbnail: JsValue, image: JsValue, author: JsValue, rejects: SdkCall -> bool)
    ensures var r := MediaChain(Returned(e), footer, thumbnail, image, author, rejects);
      r.Returned? ==>
        r.value.title == e.title && r.value.description == e.description && r.value.color == e.color && r.value.fields == e.fields
  {
    var r4 := if footer.Truthy() then SetIf(Returned(e), true, FooterCall(footer), rejects) else Returned(e);
    var r5 := SetIf(r4, thumbnail.Truthy(), EmbedSetThumbnail(thumbnail), rejects);
    var r6 := SetIf(r5, image.Truthy(), EmbedSetImage(image), rejects);
    if footer.Truthy() {
      SetIfOutcome(Returned(e), true, FooterCall(footer), rejects);
    }
    SetIfOutcome(r4, thumbnail.Truthy(), EmbedSetThumbnail(thumbnail), rejects);
    SetIfOutcome(r5, image.Truthy(), EmbedSetImage(image), rejects);
    if author.Truthy() {
      SetIfOutcome(r6, true, AuthorCall(author), rejects);
    }
  }

  /** One conditional setter: it succeeds exactly when the earlier ones did and the SDK accepts
      the call, if it is made. */
  lemma SetIfOutcome(r: Completion<Embed>, cond: bool, call: SdkCall, rejects: SdkCall -> bool)
    ensures SetIf(r, cond, call, rejects).Returned? <==> r.Returned? && (cond ==> !rejects(call))
    ensures SetIf(r, cond, call, rejects).Returned? ==>
              SetIf(r, cond, call, rejects).value == if cond then r.value.Apply(call) else r.value
  {
  }

  /** Lines 85-87: the `forEach` succeeds exactly when no element is undefined or null and the
      SDK accepts every `addField`; it then appends one field per element, in input order, and
      changes nothing else. */
  lemma {:induction false} FieldOrder(e: Embed, elems: seq<JsValue>, rejects: SdkCall -> bool)
    ensures AddFields(e, elems, rejects).Returned? <==>
              forall i :: 0 <= i < |elems| ==>
                !elems[i].IsNullish() && !rejects(FieldCall(elems[i]))
    ensures var r := AddFields(e, elems, rejects);
      r.Returned? ==>
        && r.value == e.(fields := r.value.fields)
        && |r.value.fields| == |e.fields| + |elems|
        && r.value.fields[..|e.fields|] == e.fields
        && forall i :: 0 <= i < |elems| ==> !elems[i].IsNullish() && r.value.fields[|e.fields| + i] == FieldOf(elems[i])
    decreases |elems|
  {
    if elems != [] {
      var init, last := elems[..|elems| - 1], elems[|elems| - 1];
      FieldOrder(e, init, rejects);
      var r := AddFields(e, elems, rejects);
      if r.Returned? {
        var e1 := AddFields(e, init, rejects).value;
        assert r.value.fields == e1.fields + [FieldOf(last)];
        forall i | 0 <= i < |elems|
          ensures !elems[i].IsNullish() && r.value.fields[|e.fields| + i] == FieldOf(elems[i])
        {
          if i < |elems| - 1 {
            assert elems[i] == init[i];
          }
        }
      }
      if forall i :: 0 <= i < |elems| ==>
           !elems[i].IsNullish() && !rejects(FieldCall(elems[i]))
      {
        forall i | 0 <= i < |init|
          ensures !init[i].IsNullish() && !rejects(FieldCall(init[i]))
        {
          assert init[i] == elems[i];
        }
      } else {
        var i :| 0 <= i < |elems| &&
          !(!elems[i].IsNullish() && !rejects(FieldCall(elems[i])));
        if i < |elems| - 1 {
          assert init[i] == elems[i];
        }
      }
    }
  }

  /** Lines 84-88: `addField` is called only for a non-empty array; an empty one leaves the
      embed as it was, and a non-empty one runs the loop of FieldOrder. */
  lemma FieldsOnlyWhenNonEmpty(e: Embed, fields: JsValue, rejects: SdkCall -> bool)
    ensures fields == Arr([]) ==> FieldsSpec(e, fields, rejects) == Returned(e)
    ensures fields.Arr? && fields.elems != [] ==> FieldsSpec(e, fields, rejects) == AddFields(e, fields.elems, rejects)
  {
  }

  /** Lines 83-96: a description that passed the validity check but has no `fields` gets the
      fallback, with one "Error adding fields" diagnostic for reading `length` of undefined
      (the description `{title: "Hi"}`, for one). */
  lemma MissingFieldsFallback(obj: JsValue, rejects: SdkCall -> bool, logFails: Diagnostic -> bool)
    requires !obj.IsNullish() && InvalidCheck(obj) == Returned(false) && Prop(obj, "fields") == Undefined
    requires !rejects(NewEmbed) && PropertiesSpec(obj, rejects).Returned?
    ensures var d := Diagnostic(TypeError(PropertyOfNullish("length")), FIELDS_CONTEXT);
      EmbedSpec(obj, rejects, logFails)
      == Run(if logFails(d) then [] else [d], if logFails(d) then [ReportFailed(d)] else [], Returned(Fallback))
  {
  }

  /** The description `{title: "Hi"}` passes the validity check, its title is set, and it
      still ends with the fallback. */
  lemma TitleOnlyFallsBack(obj: JsValue, rejects: SdkCall -> bool, logFails: Diagnostic -> bool)
    requires obj.Obj? && Prop(obj, "title") == Str("Hi")
    requires Prop(obj, "description") == Undefined && Prop(obj, "color") == Undefined && Prop(obj, "footer") == Undefined
    requires Prop(obj, "thumbnail") == Undefined && Prop(obj, "image") == Undefined && Prop(obj, "author") == Undefined
    requires Prop(obj, "fields") == Undefined
    requires forall call :: !rejects(call)
    requires forall d :: !logFails(d)
    ensures PropertiesSpec(obj, rejects) == Returned(EMPTY_EMBED.(title := Some(Str("Hi"))))
    ensures EmbedSpec(obj, rejects, logFails)
            == Run([Diagnostic(TypeError(PropertyOfNullish("length")), FIELDS_CONTEXT)], [], Returned(Fallback))
  {
    assert InvalidCheck(obj) == Returned(false);
    MissingFieldsFallback(obj, rejects, logFails);
  }

  /** A report createEmbed makes before returning the fallback: the invalid-description one, or
      one naming a stage. */
  predicate StageReport(d: Diagnostic) {
    d == INVALID_PROPERTIES || d.context in {CREATE_CONTEXT, PROPERTIES_CONTEXT, FIELDS_CONTEXT}
  }

  /** No partly built embed is returned: a built embed comes with no report and went through
      every stage; a fallback comes with exactly one report, and that report is the one of the
      check or stage that failed (lines 41-49, 53-62, 65-80, 83-96). */
  lemma NoPartialEmbed(obj: JsValue, rejects: SdkCall -> bool, logFails: Diagnostic -> bool)
    ensures var spec := EmbedSpec(obj, rejects, logFails);
      spec.outcome.Returned? && spec.outcome.value.Built? ==>
        && spec.log == [] && spec.console == []
        && !obj.IsNullish() && InvalidCheck(obj) == Returned(false) && !rejects(NewEmbed)
        && PropertiesSpec(obj, rejects).Returned?
        && FieldsSpec(PropertiesSpec(obj, rejects).value, Prop(obj, "fields"), rejects) == Returned(spec.outcome.value.embed)
    ensures var spec := EmbedSpec(obj, rejects, logFails);
      spec.outcome == Returned(Fallback) ==>
        || (|spec.log| == 1 && spec.console == [] && StageReport(spec.log[0]))
        || (spec.log == [] && |spec.console| == 1 && spec.console[0].ReportFailed? && StageReport(spec.console[0].report))
    ensures var spec := EmbedSpec(obj, rejects, logFails);
      spec.outcome.Threw? ==> spec.log == [] && spec.console == []
    ensures InvalidCheck(obj) == Returned(true) ==> EmbedSpec(obj, rejects, logFails) == Report(INVALID_PROPERTIES, logFails)
    ensures InvalidCheck(obj) == Returned(false) && rejects(NewEmbed) ==>
              EmbedSpec(obj, rejects, logFails) == Report(Diagnostic(SdkError(NewEmbed), CREATE_CONTEXT), logFails)
    ensures && !obj.IsNullish() && InvalidCheck(obj) == Returned(false) && !rejects(NewEmbed)
            && PropertiesSpec(obj, rejects).Threw?
            ==> EmbedSpec(obj, rejects, logFails)
                == Report(Diagnostic(PropertiesSpec(obj, rejects).error, PROPERTIES_CONTEXT), logFails)
    ensures && !obj.IsNullish() && InvalidCheck(obj) == Returned(false) && !rejects(NewEmbed)
            && PropertiesSpec(obj, rejects).Returned?
            && FieldsSpec(PropertiesSpec(obj, rejects).value, Prop(obj, "fields"), rejects).Threw?
            ==> EmbedSpec(obj, rejects, logFails)
                == Report(Diagnostic(FieldsSpec(PropertiesSpec(obj, rejects).value, Prop(obj, "fields"), rejects).error,
                                     FIELDS_CONTEXT), logFails)
  {
  }

  /** The fallback of lines 33-36 is red, titled "❗️ Error" and described as "Invalid properties
      were given to create the embed", with nothing else set. */
  lemma ErrEmbedContents(rejects: SdkCall -> bool)
    requires !rejects(NewEmbed) && !rejects(EmbedSetColor(ERR_COLOR)) && !rejects(EmbedSetTitle(ERR_TITLE))
    requires !rejects(EmbedSetDescription(ERR_DESCRIPTION))
    ensures ErrEmbedSpec(rejects) == Returned(ERR_EMBED)
    ensures ERR_EMBED == Embed(Some(Str("\U{2757}\U{FE0F} Error")), Some(Str("Invalid properties were given to create the embed")),
                               Some(Str("#FF0000")), None, None, None, None, [])
  {
  }

  /** A failing `logError` (lines 43-47, 56-60, 74-78, 90-94) never changes what createEmbed
      returns: the report moves from the log to the console, one for one. */
  lemma LoggingFailureHarmless(obj: JsValue, rejects: SdkCall -> bool, logFails: Diagnostic -> bool, other: Diagnostic -> bool)
    ensures EmbedSpec(obj, rejects, logFails).outcome == EmbedSpec(obj, rejects, other).outcome
    ensures |EmbedSpec(obj, rejects, logFails).log| + |EmbedSpec(obj, rejects, logFails).console|
            == |EmbedSpec(obj, rejects, other).log| + |EmbedSpec(obj, rejects, other).console|
    ensures (forall d :: !logFails(d)) ==> EmbedSpec(obj, rejects, logFails).console == []
  {
  }
}
