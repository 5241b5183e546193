/**
 The owners' chat page: sending a message appends it to the conversation. The
 message's id and timestamp come from the clock and are parameters here.
 */
module OwnerCommunication {
  import opened Wrappers
  import opened Text

  datatype Message = Message(id: string, sender: string, content: string, timestamp: string, isAdmin: bool, apartment: Option<string>)

  /** The demo owner every message from this page is sent as. */
  const Sender: string := "Carlos Mendoza"
  const SenderApartment: string := "Apt 301"

  /**
   `handleSendMessage`: a blank input changes nothing; otherwise the untrimmed
   input is appended as an owner's message and the input is cleared.
   */
  function SendMessage(messages: seq<Message>, input: string, id: string, timestamp: string): (r: (seq<Message>, string))
    ensures IsBlank(input) ==> r == (messages, input)
    ensures !IsBlank(input) ==>
      && |r.0| == |messages| + 1
      && r.0[..|messages|] == messages
      && r.0[|messages|] == Message(id, Sender, input, timestamp, false, Some(SenderApartment))
      && r.1 == ""
  {
    TrimEmptyIffBlank(input);
    if Trim(input) != "" then
      (messages + [Message(id, Sender, input, timestamp, false, Some(SenderApartment))], "")
    else (messages, input)
  }

  /**
   The conversation grows exactly when `input.trim()` is non-empty, and then
   ends with the untrimmed input as an owner's message.
   */
  lemma SendGrowsExactlyOnContent(messages: seq<Message>, input: string, id: string, timestamp: string)
    ensures var r := SendMessage(messages, input, id, timestamp).0;
      && (|r| > |messages| <==> Trim(input) != "")
      && (Trim(input) != "" ==> r[|r| - 1].content == input && !r[|r| - 1].isAdmin)
  {
    TrimEmptyIffBlank(input);
  }
}
