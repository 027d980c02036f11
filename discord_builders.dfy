/** The SDK builder objects the core mutates in place. Each keeps its state in `data`, like
    the platform library's builders; a setter either throws (when the SDK rejects the call) and
    leaves `data` as it was, or records its argument. */
module DiscordBuilders {
  import opened JsValues
  import opened DiscordData
  import opened Errors

  class TextInputBuilder {
    var data: TextInput

    constructor ()
      ensures data == EMPTY_TEXT_INPUT
    {
      data := EMPTY_TEXT_INPUT;
    }

    /** Makes `call` on this builder. */
    method Perform(call: SdkCall, rejects: SdkCall -> bool) returns (o: Outcome)
      modifies this
      ensures o == Attempt(rejects, call)
      ensures data == if o.Normal? then old(data).Apply(call) else old(data)
    {
      o := Attempt(rejects, call);
      if o.Normal? {
        data := data.Apply(call);
      }
    }

    method SetCustomId(v: JsValue, rejects: SdkCall -> bool) returns (o: Outcome)
      modifies this
      ensures o == Attempt(rejects, TextInputSetCustomId(v))
      ensures data == if o.Normal? then old(data).(customId := Some(v)) else old(data)
    {
      o := Perform(TextInputSetCustomId(v), rejects);
    }

    method SetLabel(v: JsValue, rejects: SdkCall -> bool) returns (o: Outcome)
      modifies this
      ensures o == Attempt(rejects, TextInputSetLabel(v))
      ensures data == if o.Normal? then old(data).(labelText := Some(v)) else old(data)
    {
      o := Perform(TextInputSetLabel(v), rejects);
    }

    method SetStyle(v: JsValue, rejects: SdkCall -> bool) returns (o: Outcome)
      modifies this
      ensures o == Attempt(rejects, TextInputSetStyle(v))
      ensures data == if o.Normal? then old(data).(style := Some(v)) else old(data)
    {
      o := Perform(TextInputSetStyle(v), rejects);
    }

    method SetPlaceholder(v: JsValue, rejects: SdkCall -> bool) returns (o: Outcome)
      modifies this
      ensures o == Attempt(rejects, TextInputSetPlaceholder(v))
      ensures data == if o.Normal? then old(data).(placeholder := Some(v)) else old(data)
    {
      o := Perform(TextInputSetPlaceholder(v), rejects);
    }

    method SetRequired(v: JsValue, rejects: SdkCall -> bool) returns (o: Outcome)
      modifies this
      ensures o == Attempt(rejects, TextInputSetRequired(v))
      ensures data == if o.Normal? then old(data).(required := Some(v)) else old(data)
    {
      o := Perform(TextInputSetRequired(v), rejects);
    }
  }

  class ModalBuilder {
    var data: Modal

    constructor ()
      ensures data == EMPTY_MODAL
    {
      data := EMPTY_MODAL;
    }

    method Perform(call: SdkCall, rejects: SdkCall -> bool) returns (o: Outcome)
      modifies this
      ensures o == Attempt(rejects, call)
      ensures data == if o.Normal? then old(data).Apply(call) else old(data)
    {
      o := Attempt(rejects, call);
      if o.Normal? {
        data := data.Apply(call);
      }
    }

    method SetCustomId(v: JsValue, rejects: SdkCall -> bool) returns (o: Outcome)
      modifies this
      ensures o == Attempt(rejects, ModalSetCustomId(v))
      ensures data == if o.Normal? then old(data).(customId := Some(v)) else old(data)
    {
      o := Perform(ModalSetCustomId(v), rejects);
    }

    method SetTitle(v: JsValue, rejects: SdkCall -> bool) returns (o: Outcome)
      modifies this
      ensures o == Attempt(rejects, ModalSetTitle(v))
      ensures data == if o.Normal? then old(data).(title := Some(v)) else old(data)
    {
      o := Perform(ModalSetTitle(v), rejects);
    }

    /** `addComponents(row)`: appends the row after those already added. */
    method AddComponents(row: ActionRow, rejects: SdkCall -> bool) returns (o: Outcome)
      modifies this
      ensures o == Attempt(rejects, ModalAddComponents(row))
      ensures data == if o.Normal? then old(data).(components := old(data).components + [row]) else old(data)
    {
      o := Perform(ModalAddComponents(row), rejects);
    }
  }

  class EmbedBuilder {
    var data: Embed

    constructor ()
      ensures data == EMPTY_EMBED
    {
      data := EMPTY_EMBED;
    }

    method Perform(call: SdkCall, rejects: SdkCall -> bool) returns (o: Outcome)
      modifies this
      ensures o == Attempt(rejects, call)
      ensures data == if o.Normal? then old(data).Apply(call) else old(data)
    {
      o := Attempt(rejects, call);
      if o.Normal? {
        data := data.Apply(call);
      }
    }

    method SetTitle(v: JsValue, rejects: SdkCall -> bool) returns (o: Outcome)
      modifies this
      ensures o == Attempt(rejects, EmbedSetTitle(v))
      ensures data == if o.Normal? then old(data).(title := Some(v)) else old(data)
    {
      o := Perform(EmbedSetTitle(v), rejects);
    }

    method SetDescription(v: JsValue, rejects: SdkCall -> bool) returns (o: Outcome)
      modifies this
      ensures o == Attempt(rejects, EmbedSetDescription(v))
      ensures data == if o.Normal? then old(data).(description := Some(v)) else old(data)
    {
      o := Perform(EmbedSetDescription(v), rejects);
    }

    method SetColor(v: JsValue, rejects: SdkCall -> bool) returns (o: Outcome)
      modifies this
      ensures o == Attempt(rejects, EmbedSetColor(v))
      ensures data == if o.Normal? then old(data).(color := Some(v)) else old(data)
    {
      o := Perform(EmbedSetColor(v), rejects);
    }

    /** `addField(name, value, inline)`: appends one field after those already added. */
    method AddField(name: JsValue, value: JsValue, inline: JsValue, rejects: SdkCall -> bool) returns (o: Outcome)
      modifies this
      ensures o == Attempt(rejects, EmbedAddField(name, value, inline))
      ensures data == if o.Normal? then old(data).(fields := old(data).fields + [EmbedField(name, value, inline)]) else old(data)
    {
      o := Perform(EmbedAddField(name, value, inline), rejects);
    }
  }
}
