/** The state held by the chat platform's builder objects (TextInputBuilder, ActionRowBuilder,
    ModalBuilder, EmbedBuilder), as records of the fields that have been set, and the calls the
    modelled code makes on them. The SDK's own validation, colour parsing and serialisation are
    not modelled: whether the SDK throws on a call is a parameter `rejects: SdkCall -> bool`
    of every operation. */
module DiscordData {
  import opened JsValues

  /** A text-input component: each field is the value handed to its setter, if one succeeded. */
  datatype TextInput = TextInput(
    customId: Option<JsValue>,
    labelText: Option<JsValue>,
    style: Option<JsValue>,
    placeholder: Option<JsValue>,
    required: Option<JsValue>)
  {
    /** The state after a successful call on this builder; calls on other builders change nothing. */
    function Apply(call: SdkCall): TextInput {
      match call
      case TextInputSetCustomId(v) => this.(customId := Some(v))
      case TextInputSetLabel(v) => this.(labelText := Some(v))
      case TextInputSetStyle(v) => this.(style := Some(v))
      case TextInputSetPlaceholder(v) => this.(placeholder := Some(v))
      case TextInputSetRequired(v) => this.(required := Some(v))
      case _ => this
    }
  }

  const EMPTY_TEXT_INPUT := TextInput(None, None, None, None, None)

  /** An action row holding its components in the order they were added. */
  datatype ActionRow = ActionRow(components: seq<TextInput>)
  {
    function Apply(call: SdkCall): ActionRow {
      match call
      case ActionRowAddComponents(input) => this.(components := components + [input])
      case _ => this
    }
  }

  const EMPTY_ACTION_ROW := ActionRow([])

  /** A modal: its custom ID and title, if set, and the rows added so far, in order. */
  datatype Modal = Modal(customId: Option<JsValue>, title: Option<JsValue>, components: seq<ActionRow>)
  {
    function Apply(call: SdkCall): Modal {
      match call
      case ModalSetCustomId(v) => this.(customId := Some(v))
      case ModalSetTitle(v) => this.(title := Some(v))
      case ModalAddComponents(row) => this.(components := components + [row])
      case _ => this
    }
  }

  const EMPTY_MODAL := Modal(None, None, [])

  datatype Footer = Footer(text: JsValue, iconURL: JsValue)

  datatype Author = Author(name: JsValue, iconURL: JsValue, url: JsValue)

  datatype EmbedField = EmbedField(name: JsValue, value: JsValue, inline: JsValue)

  /** An embed: the value handed to each setter that succeeded, and the fields added, in order. */
  datatype Embed = Embed(
    title: Option<JsValue>,
    description: Option<JsValue>,
    color: Option<JsValue>,
    footer: Option<Footer>,
    thumbnail: Option<JsValue>,
    image: Option<JsValue>,
    author: Option<Author>,
    fields: seq<EmbedField>)
  {
    function Apply(call: SdkCall): Embed {
      match call
      case EmbedSetTitle(v) => this.(title := Some(v))
      case EmbedSetDescription(v) => this.(description := Some(v))
      case EmbedSetColor(v) => this.(color := Some(v))
      case EmbedSetFooter(text, iconURL) => this.(footer := Some(Footer(text, iconURL)))
      case EmbedSetThumbnail(v) => this.(thumbnail := Some(v))
      case EmbedSetImage(v) => this.(image := Some(v))
      case EmbedSetAuthor(name, iconURL, url) => this.(author := Some(Author(name, iconURL, url)))
      case EmbedAddField(name, value, inline) => this.(fields := fields + [EmbedField(name, value, inline)])
      case _ => this
    }
  }

  const EMPTY_EMBED := Embed(None, None, None, None, None, None, None, [])

  /** Every call the modelled code makes into the SDK: the builder constructors and setters,
      with the arguments they receive. */
  datatype SdkCall =
    | NewTextInput
    | TextInputSetCustomId(v: JsValue)
    | TextInputSetLabel(v: JsValue)
    | TextInputSetStyle(v: JsValue)
    | TextInputSetPlaceholder(v: JsValue)
    | TextInputSetRequired(v: JsValue)
    | NewActionRow
    | ActionRowAddComponents(input: TextInput)
    | NewModal
    | ModalSetCustomId(v: JsValue)
    | ModalSetTitle(v: JsValue)
    | ModalAddComponents(row: ActionRow)
    | NewEmbed
    | EmbedSetTitle(v: JsValue)
    | EmbedSetDescription(v: JsValue)
    | EmbedSetColor(v: JsValue)
    | EmbedSetFooter(text: JsValue, iconURL: JsValue)
    | EmbedSetThumbnail(v: JsValue)
    | EmbedSetImage(v: JsValue)
    | EmbedSetAuthor(name: JsValue, iconURL: JsValue, url: JsValue)
    | EmbedAddField(name: JsValue, value: JsValue, inline: JsValue)
}
