/**
 * Client code that drives a VoiceChat through a few situations and checks,
 * from the contracts alone, what the component does in each.
 */
module Scenarios {
  import opened Wrappers
  import opened Transcript
  import opened Session
  import Recognition
  import Text

  /**
   * Two final results for the same utterance, 400 ms apart: each sets its own
   * timer, and the first is not cancelled, so two voice turns are pending.
   */
  method DoubleFinalSchedulesTwoTurns()
  {
    var chat := new VoiceChat("owl", true, false, []);
    chat.ToggleListening();
    assert chat.isListening && chat.effects == [RecognitionStart];
    var hello := Recognition.Segment("hello", true);
    FirstFinalShown(chat, hello);
    SecondFinalScheduled(chat, hello);
    BothTurnsAnswered(chat);
  }

  /** The first final result is shown and schedules one voice turn. */
  method FirstFinalShown(chat: VoiceChat, hello: Recognition.Segment)
    requires chat.Valid() && chat.messages == [] && chat.pending == []
    requires hello == Recognition.Segment("hello", true)
    modifies chat
    ensures chat.Valid() && chat.messages == [] && chat.pending == [VoiceTurn("hello")]
  {
    assert Recognition.InRange([hello], 0) == [hello];
    assert [hello][..0] == [];
    assert Recognition.Joined([hello], true) == Recognition.Joined([], true) + "hello";
    chat.OnResult([hello], 0);
    assert chat.currentText == "hello";
  }

  /** A second final result for the same words, later in the list, schedules a second turn. */
  method SecondFinalScheduled(chat: VoiceChat, hello: Recognition.Segment)
    requires chat.Valid() && chat.messages == [] && chat.pending == [VoiceTurn("hello")]
    requires hello == Recognition.Segment("hello", true)
    modifies chat
    ensures chat.Valid() && chat.messages == [] && chat.pending == [VoiceTurn("hello"), VoiceTurn("hello")]
  {
    assert Recognition.InRange([hello, hello], 1) == [hello];
    assert [hello][..0] == [];
    assert Recognition.Joined([hello], true) == Recognition.Joined([], true) + "hello";
    assert Recognition.FinalText(Recognition.InRange([hello, hello], 1)) == "hello";
    chat.OnResult([hello, hello], 1);
  }

  /** Firing both pending turns answers the same utterance twice. */
  method BothTurnsAnswered(chat: VoiceChat)
    requires chat.Valid() && chat.messages == []
    requires chat.pending == [VoiceTurn("hello"), VoiceTurn("hello")]
    modifies chat
  {
    assert !Text.IsWhitespace("hello"[0]);
    chat.Fire(0, Some("hi"));
    assert chat.messages == [Message("hello", User), Message("hi", Pet)];
    assert chat.pending == [VoiceTurn("hello"), ClearCurrentText];
    chat.Fire(0, Some("hi again"));
    assert chat.messages[2..] == [Message("hello", User), Message("hi again", Pet)];
  }

  /** A failed reply on a voice turn adds one user and one pet message and speaks the apology. */
  method VoiceFailureIsSpoken()
  {
    var chat := new VoiceChat("fox", true, true, []);
    assert !Text.IsWhitespace("今天天气怎么样"[0]);
    chat.HandleVoiceMessage("今天天气怎么样", None);
    assert chat.messages == [Message("今天天气怎么样", User), Message(VOICE_APOLOGY, Pet)];
    assert chat.effects[|chat.effects| - 1] == Play(VOICE_APOLOGY, "fox");
    assert !chat.isProcessing;
  }

  /** A failed reply on a typed message is shown but not spoken; the parent still hears of the text. */
  method SendFailureIsSilent()
  {
    var chat := new VoiceChat("dolphin", false, true, []);
    assert !Text.IsWhitespace("hi"[0]);
    chat.HandleSendMessage("hi", None);
    assert chat.messages == [Message("hi", User), Message(SEND_APOLOGY, Pet)];
    assert chat.effects == [NotifyParent("hi"), ChatRequest("hi", "dolphin")];
  }

  /** Tapping the microphone while the pet speaks stops playback before recognition starts. */
  method ListenWhileSpeaking()
  {
    var chat := new VoiceChat("fox", true, false, []);
    chat.HandleVoiceMessage("hello", Some("hi there"));
    chat.OnPlayback(Started);
    assert chat.isSpeaking;
    var before := chat.effects;
    chat.ToggleListening();
    assert chat.effects == before + [PlaybackStop, RecognitionStart];
    assert chat.isListening && !chat.isSpeaking && chat.currentText == "";
  }

  /** Whitespace-only input is ignored by both handlers. */
  method BlankInputIgnored()
  {
    var chat := new VoiceChat("fox", true, true, []);
    chat.HandleSendMessage(" \n\t", Some("x"));
    chat.HandleVoiceMessage("　", None);
    assert chat.messages == [] && chat.effects == [] && chat.pending == [];
  }
}
