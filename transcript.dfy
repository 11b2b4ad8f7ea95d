/** The entries of the chat transcript (`messages` in VoiceChat.js). */
module Transcript {
  /** The source's `sender` field, which is either 'user' or 'pet'. */
  datatype Sender = User | Pet

  /** A transcript entry; its wall-clock `id` and `timestamp` are not modelled. */
  datatype Message = Message(text: string, sender: Sender)
}
