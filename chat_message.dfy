/**
 * Role and text extraction for chat turns (src/helpers/chat_message.ts).
 * A turn is either a plain OpenAI message parameter or a LangChain message.
 */
module ChatMessage {
  import opened Wrappers

  /** One element of list content: `{ type, text }`; only parts of type "text" are read. */
  datatype ContentPart = ContentPart(kind: string, text: string)

  /** Message content: a string, a list of typed parts, or `null`/absent. */
  datatype Content =
    | Text(value: string)
    | Parts(parts: seq<ContentPart>)
    | Missing

  /**
   * A chat turn. The role LangChain's own mapping gives a LangChain message is
   * external to this model; such a message carries that role with it.
   */
  datatype Message =
    | Plain(role: string, content: Content)
    | LangChain(mappedRole: string, content: Content)

  /** The OpenAI role of a turn: a plain message's `role` field, unchanged. */
  function ChatMessageToOpenAIRole(m: Message): (r: string)
    ensures m.Plain? ==> r == m.role
    ensures m.LangChain? ==> r == m.mappedRole
  {
    match m
    case Plain(role, _) => role
    case LangChain(role, _) => role
  }

  predicate IsTextPart(p: ContentPart) {
    p.kind == "text"
  }

  /** `parts.find(part => part.type === 'text')`, as the index of the part found. */
  function FindTextPart(parts: seq<ContentPart>): (r: Option<nat>)
    ensures r.None? <==> forall i :: 0 <= i < |parts| ==> !IsTextPart(parts[i])
    ensures r.Some? ==> r.value < |parts| && IsTextPart(parts[r.value])
    ensures r.Some? ==> forall i :: 0 <= i < r.value ==> !IsTextPart(parts[i])
  {
    if parts == [] then None
    else if IsTextPart(parts[0]) then Some(0)
    else
      match FindTextPart(parts[1..])
      case None => None
      case Some(i) => Some(i + 1)
  }

  /**
   * The text of a turn: string content unchanged, the text of the first "text"
   * part of list content, and the empty string otherwise.
   */
  function ChatMessageToText(m: Message): (r: string)
    ensures m.content.Text? ==> r == m.content.value
    ensures m.content.Missing? ==> r == ""
    ensures m.content.Parts? && (forall i :: 0 <= i < |m.content.parts| ==> !IsTextPart(m.content.parts[i]))
            ==> r == ""
    ensures m.content.Parts? ==>
              forall i :: 0 <= i < |m.content.parts| && IsTextPart(m.content.parts[i])
                          && (forall j :: 0 <= j < i ==> !IsTextPart(m.content.parts[j]))
                          ==> r == m.content.parts[i].text
  {
    match m.content
    case Parts(parts) =>
      (match FindTextPart(parts)
       case Some(i) => parts[i].text
       case None => "")
    case Text(s) => s
    case Missing => ""
  }
}
