/**
 * The mapping of the host's `conversationHistory` prop onto transcript
 * messages (the `conversationHistory.map(...)` in VoiceChat.js).
 */
module History {
  import opened Transcript

  /** One entry pushed by the host: `{role, content}`; its optional timestamp only feeds ids. */
  datatype Entry = Entry(role: string, content: string)

  function ToMessage(e: Entry): Message {
    Message(e.content, if e.role == "user" then User else Pet)
  }

  /**
   * Entry i becomes message i, with the same text, sent by the user exactly
   * when the role is "user" and by the pet for every other role.
   */
  function MapHistory(h: seq<Entry>): (m: seq<Message>)
    ensures |m| == |h|
    ensures forall i :: 0 <= i < |h| ==> m[i].text == h[i].content
    ensures forall i :: 0 <= i < |h| ==> (m[i].sender == User <==> h[i].role == "user")
  {
    seq(|h|, i requires 0 <= i < |h| => ToMessage(h[i]))
  }

  /** The host-side form of a transcript, with roles "user" and "assistant". */
  function ToHistory(m: seq<Message>): (h: seq<Entry>)
    ensures |h| == |m|
  {
    seq(|m|, i requires 0 <= i < |m| => Entry(if m[i].sender == User then "user" else "assistant", m[i].text))
  }

  /** A transcript sent out as host history and synced back in is unchanged. */
  lemma MapHistoryInvertsToHistory(m: seq<Message>)
    ensures MapHistory(ToHistory(m)) == m
  {
  }

  /**
   * Conversely, host history survives the round trip exactly when every role
   * is already "user" or "assistant": any other role is read as the pet's.
   */
  lemma ToHistoryInvertsMapHistory(h: seq<Entry>)
    ensures ToHistory(MapHistory(h)) == h <==> forall i :: 0 <= i < |h| ==> h[i].role in {"user", "assistant"}
  {
  }

  /** The mapping works entry by entry, so it distributes over concatenation. */
  lemma MapHistoryAppend(h1: seq<Entry>, h2: seq<Entry>)
    ensures MapHistory(h1 + h2) == MapHistory(h1) + MapHistory(h2)
  {
  }
}
