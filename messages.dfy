/** Notification messages pushed to hook handlers. */
module Messages {
  import opened Wrappers
  import opened Strings

  datatype MessageType = Info | Warning | Error | Debug | All

  /** `MessageType.ToString()`. */
  function TypeName(t: MessageType): string {
    match t
    case Info => "Info"
    case Warning => "Warning"
    case Error => "Error"
    case Debug => "Debug"
    case All => "All"
  }

  /** `MessageHook`: text, purpose, type and the creation stamp (the UTC clock reading, already
      formatted; the clock is an input of the model). */
  datatype MessageHook = MessageHook(text: string, purpose: string, msgType: MessageType, stamp: string)

  /** `new MessageHook(text, purpose, type)`: text is checked first, then purpose. */
  function NewMessageHook(text: Option<string>, purpose: Option<string>, msgType: MessageType, stamp: string)
    : (r: Result<MessageHook, Failure>)
    ensures IsNullOrWhiteSpace(text) ==> r == Err(ArgumentNull("text"))
    ensures !IsNullOrWhiteSpace(text) && IsNullOrWhiteSpace(purpose) ==> r == Err(ArgumentNull("purpose"))
    ensures r.Ok? <==> !IsNullOrWhiteSpace(text) && !IsNullOrWhiteSpace(purpose)
    ensures r.Ok? ==> r.value == MessageHook(text.value, purpose.value, msgType, stamp)
  {
    if IsNullOrWhiteSpace(text) then Err(ArgumentNull("text"))
    else if IsNullOrWhiteSpace(purpose) then Err(ArgumentNull("purpose"))
    else Ok(MessageHook(text.value, purpose.value, msgType, stamp))
  }

  /** `MessageHook.ToString`: "{stamp} #[ Purpose: {p} - Type: {t} - Message: {m} ]#". */
  function HookText(m: MessageHook): string {
    m.stamp + " #[ Purpose: " + m.purpose + " - Type: " + TypeName(m.msgType) + " - Message: " + m.text + " ]#"
  }

  /** The type names are distinct, so the rendered type tells the message type. */
  lemma TypeNameInjective(a: MessageType, b: MessageType)
    ensures TypeName(a) == TypeName(b) ==> a == b
  {
  }

  /** The stamp comes first, the text last, and the frame "#[ ... ]#" surrounds the fields. */
  lemma HookTextLayout(m: MessageHook)
    ensures var t := HookText(m);
      && t[..|m.stamp|] == m.stamp
      && t[|m.stamp|..|m.stamp| + 13] == " #[ Purpose: "
      && t[|m.stamp| + 13..|m.stamp| + 13 + |m.purpose|] == m.purpose
      && t[|t| - |m.text| - 3..] == m.text + " ]#"
  {
    var t := HookText(m);
    assert t == m.stamp + " #[ Purpose: " + m.purpose
      + (" - Type: " + TypeName(m.msgType) + " - Message: ") + (m.text + " ]#");
  }
}
