/**
 * The session logic of the VoiceChat component: its five pieces of React
 * state and the handlers that update them. Calls into the recognizer, the
 * TTS service, the chat service, the parent and `setTimeout` are recorded in
 * an effect log; timers that have been set and not yet fired are kept in
 * `pending`, to be fired by the caller in any order.
 */
module Session {
  import opened Wrappers
  import opened Text
  import opened Transcript
  import History
  import Persona
  import Recognition

  /** Delay before a final transcript is handed to handleVoiceMessage. */
  const VOICE_DELAY_MS: nat := 1000
  /** Delay before handleVoiceMessage clears the interim text. */
  const CLEAR_DELAY_MS: nat := 500

  /** handleVoiceMessage's reply when the chat service answers with an empty string. */
  const VOICE_FALLBACK := "哇，这个问题很有趣呢！让我想想怎么回答你..."
  /** handleVoiceMessage's reply when the chat service fails. */
  const VOICE_APOLOGY := "哎呀，我现在有点累了，稍后再聊好吗？"
  /** handleSendMessage's reply when the chat service fails. */
  const SEND_APOLOGY := "抱歉，我遇到了一点问题，请稍后再试。"

  /** A callback passed to `setTimeout`. */
  datatype Task = VoiceTurn(text: string) | ClearCurrentText

  /** Calls the component makes into code outside it, in the order it makes them. */
  datatype Effect =
    | RecognitionStart
    | RecognitionStop
    | PlaybackStop
    | Play(text: string, pet: string)
    | NotifyParent(text: string)
    | ChatRequest(text: string, pet: string)
    | Scheduled(task: Task, delayMs: nat)

  /** The callbacks speakText hands to the TTS service, and the rejection of its promise. */
  datatype PlaybackEvent = Started | Ended | Failed | Rejected

  /** The recognizer's `onerror` and `onend` callbacks. */
  datatype RecognitionEvent = RecognitionError | RecognitionEnded

  /**
   * The text the pet says after a voice turn: the reply when it is non-empty,
   * the fallback when the service answered with nothing, the apology when it
   * failed. It is never empty, so a voice turn always has something to speak.
   */
  function VoiceReplyText(reply: Option<string>): (p: string)
    ensures p != ""
    ensures reply.Some? && reply.value != "" ==> p == reply.value
    ensures reply == Some("") ==> p == VOICE_FALLBACK
    ensures reply.None? ==> p == VOICE_APOLOGY
  {
    match reply
    case Some(r) => if r != "" then r else VOICE_FALLBACK
    case None => VOICE_APOLOGY
  }

  class VoiceChat {
    /**
     * The `selectedPet` prop, passed as is to the chat and TTS services; it
     * is fixed for the component's lifetime here.
     */
    const selectedPet: string
    /** Whether the browser offered a SpeechRecognition constructor at mount time. */
    const hasRecognizer: bool
    /** Whether the parent passed an `onSendMessage` callback. */
    const hasParent: bool

    var messages: seq<Message>
    var isListening: bool
    var isProcessing: bool
    var isSpeaking: bool
    var currentText: string
    /** Timers that are set and have not fired yet. */
    var pending: seq<Task>
    /** Every call into the outside world so far. */
    var effects: seq<Effect>

    /**
     * Between handlers nothing is being processed (each handler runs to
     * completion here), and every pending voice turn carries a non-empty
     * transcript, because onresult schedules one only for a non-empty one.
     */
    ghost predicate Valid()
      reads this
    {
      !isProcessing &&
      forall k :: 0 <= k < |pending| ==> pending[k].VoiceTurn? ==> pending[k].text != ""
    }

    /** Mounting: initial state, then the history effect's first run on the initial prop. */
    constructor (selectedPet: string, hasRecognizer: bool, hasParent: bool, history: seq<History.Entry>)
      ensures Valid()
      ensures this.selectedPet == selectedPet && this.hasRecognizer == hasRecognizer && this.hasParent == hasParent
      ensures messages == if |history| > 0 then History.MapHistory(history) else []
      ensures !isListening && !isProcessing && !isSpeaking && currentText == ""
      ensures pending == [] && effects == []
    {
      this.selectedPet := selectedPet;
      this.hasRecognizer := hasRecognizer;
      this.hasParent := hasParent;
      messages := [];
      isListening, isProcessing, isSpeaking := false, false, false;
      currentText := "";
      pending, effects := [], [];
      if |history| > 0 {
        messages := History.MapHistory(history);
      }
    }

    /**
     * The effect on `conversationHistory`: a non-empty history replaces the
     * transcript, whatever it held; an empty one leaves it alone.
     */
    method SyncHistory(history: seq<History.Entry>)
      requires Valid()
      modifies this`messages
      ensures Valid()
      ensures messages == if |history| > 0 then History.MapHistory(history) else old(messages)
    {
      if |history| > 0 {
        messages := History.MapHistory(history);
      }
    }

    /**
     * speakText: hands the text to the TTS service unless the component
     * already believes it is speaking. The flag itself only changes through
     * the callbacks (OnPlayback).
     */
    method SpeakText(text: string)
      modifies this`effects
      ensures effects == old(effects) + (if isSpeaking then [] else [Play(text, selectedPet)])
    {
      if !isSpeaking {
        effects := effects + [Play(text, selectedPet)];
      }
    }

    /** The TTS callbacks: onStart sets the speaking flag; onEnd, onError and a rejection clear it. */
    method OnPlayback(event: PlaybackEvent)
      requires Valid()
      modifies this`isSpeaking
      ensures Valid()
      ensures isSpeaking <==> event == Started
    {
      match event
      case Started => isSpeaking := true;
      case Ended => isSpeaking := false;
      case Failed => isSpeaking := false;
      case Rejected => isSpeaking := false;
    }

    /** The recognizer's onerror and onend: both only clear the listening flag. */
    method OnRecognitionStop(event: RecognitionEvent)
      requires Valid()
      modifies this`isListening
      ensures Valid()
      ensures !isListening
    {
      isListening := false;
    }

    /**
     * onresult: shows the final transcript if there is one and the interim
     * transcript otherwise, and for a non-empty final transcript sets a
     * 1000 ms timer for handleVoiceMessage. Earlier timers are left running.
     */
    method OnResult(results: seq<Recognition.Segment>, resultIndex: nat)
      requires Valid()
      modifies this`currentText, this`pending, this`effects
      ensures Valid()
      ensures var range := Recognition.InRange(results, resultIndex);
        var final := Recognition.FinalText(range);
        var interim := Recognition.InterimText(range);
        && currentText == (if final != "" then final else interim)
        && pending == old(pending) + (if final != "" then [VoiceTurn(final)] else [])
        && effects == old(effects) + (if final != "" then [Scheduled(VoiceTurn(final), VOICE_DELAY_MS)] else [])
    {
      var final, interim := Recognition.SplitSegments(results, resultIndex);
      currentText := interim;
      if final != "" {
        currentText := final;
        pending := pending + [VoiceTurn(final)];
        effects := effects + [Scheduled(VoiceTurn(final), VOICE_DELAY_MS)];
      }
    }

    /**
     * What handleVoiceMessage does, given the reply outcome and the timers
     * pending when it starts: nothing for blank text; otherwise the user's
     * text and the pet's reply are appended, a 500 ms clear of the interim
     * text is set, the chat service is called once, the reply is spoken
     * (unless the component already believes it is speaking) and processing
     * ends.
     */
    twostate predicate VoiceHandled(text: string, reply: Option<string>, pending0: seq<Task>)
      reads this
    {
      if IsBlank(text) then
        messages == old(messages) && effects == old(effects) && pending == pending0 &&
        isProcessing == old(isProcessing)
      else
        var p := VoiceReplyText(reply);
        && messages == old(messages) + [Message(text, User), Message(p, Pet)]
        && pending == pending0 + [ClearCurrentText]
        && effects == old(effects) + [Scheduled(ClearCurrentText, CLEAR_DELAY_MS), ChatRequest(text, selectedPet)]
                      + (if old(isSpeaking) then [] else [Play(p, selectedPet)])
        && !isProcessing
    }

    /** handleVoiceMessage, with the chat service's outcome as `reply` (None: it threw). */
    method HandleVoiceMessage(text: string, reply: Option<string>)
      requires Valid()
      modifies this`messages, this`isProcessing, this`pending, this`effects
      ensures Valid()
      ensures VoiceHandled(text, reply, old(pending))
    {
      var empty := TrimmedIsEmpty(text);
      if empty {
        return;
      }
      isProcessing := true;
      pending := pending + [ClearCurrentText];
      effects := effects + [Scheduled(ClearCurrentText, CLEAR_DELAY_MS)];
      messages := messages + [Message(text, User)];
      effects := effects + [ChatRequest(text, selectedPet)];
      match reply {
        case Some(response) =>
          var petText := if response != "" then response else VOICE_FALLBACK;
          messages := messages + [Message(petText, Pet)];
          SpeakText(petText);
        case None =>
          messages := messages + [Message(VOICE_APOLOGY, Pet)];
          SpeakText(VOICE_APOLOGY);
      }
      isProcessing := false;
    }

    /**
     * handleSendMessage: for non-blank text appends the user's message,
     * notifies the parent, calls the chat service and appends its reply and
     * speaks it; on failure appends the apology and does not speak it.
     */
    method HandleSendMessage(text: string, reply: Option<string>)
      requires Valid()
      modifies this`messages, this`isProcessing, this`effects
      ensures Valid()
      ensures IsBlank(text) ==> messages == old(messages) && effects == old(effects)
      ensures !IsBlank(text) ==>
        && messages == old(messages) + [Message(text, User), Message(if reply.Some? then reply.value else SEND_APOLOGY, Pet)]
        && effects == old(effects) + (if hasParent then [NotifyParent(text)] else []) + [ChatRequest(text, selectedPet)]
                      + (if reply.Some? && !old(isSpeaking) then [Play(reply.value, selectedPet)] else [])
    {
      var empty := TrimmedIsEmpty(text);
      if empty {
        return;
      }
      messages := messages + [Message(text, User)];
      if hasParent {
        effects := effects + [NotifyParent(text)];
      }
      isProcessing := true;
      effects := effects + [ChatRequest(text, selectedPet)];
      match reply {
        case Some(response) =>
          messages := messages + [Message(response, Pet)];
          SpeakText(response);
        case None =>
          messages := messages + [Message(SEND_APOLOGY, Pet)];
      }
      isProcessing := false;
    }

    /**
     * toggleListening: without a recognizer nothing happens; while listening
     * recognition is stopped; otherwise playback is stopped first if the
     * component is speaking, then recognition starts and the interim text is
     * cleared.
     */
    method ToggleListening()
      requires Valid()
      modifies this`isListening, this`isSpeaking, this`currentText, this`effects
      ensures Valid()
      ensures !hasRecognizer ==>
        isListening == old(isListening) && isSpeaking == old(isSpeaking) &&
        currentText == old(currentText) && effects == old(effects)
      ensures hasRecognizer && old(isListening) ==>
        !isListening && isSpeaking == old(isSpeaking) && currentText == old(currentText) &&
        effects == old(effects) + [RecognitionStop]
      ensures hasRecognizer && !old(isListening) ==>
        isListening && !isSpeaking && currentText == "" &&
        effects == old(effects) + (if old(isSpeaking) then [PlaybackStop] else []) + [RecognitionStart]
    {
      if !hasRecognizer {
        return;
      }
      if isListening {
        effects := effects + [RecognitionStop];
        isListening := false;
      } else {
        if isSpeaking {
          effects := effects + [PlaybackStop];
          isSpeaking := false;
        }
        effects := effects + [RecognitionStart];
        isListening := true;
        currentText := "";
      }
    }

    /**
     * Firing the pending timer at position k: a clear empties the interim
     * text, a voice turn runs handleVoiceMessage with the given reply outcome.
     */
    method Fire(k: nat, reply: Option<string>)
      requires Valid()
      requires k < |pending|
      modifies this`messages, this`isProcessing, this`pending, this`effects, this`currentText
      ensures Valid()
      ensures old(pending[k]).VoiceTurn? ==> old(pending[k]).text != ""
      ensures var rest := old(pending[..k] + pending[k + 1..]);
        match old(pending[k])
        case ClearCurrentText =>
          currentText == "" && pending == rest &&
          messages == old(messages) && effects == old(effects) && isProcessing == old(isProcessing)
        case VoiceTurn(t) =>
          VoiceHandled(t, reply, rest) && currentText == old(currentText)
    {
      var task := pending[k];
      pending := pending[..k] + pending[k + 1..];
      assert forall j :: 0 <= j < |pending| ==> pending[j] in old(pending);
      match task
      case ClearCurrentText =>
        currentText := "";
      case VoiceTurn(t) =>
        HandleVoiceMessage(t, reply);
    }

    /** The unmount cleanup: stop the recognizer if there is one, then stop playback. */
    method Teardown()
      requires Valid()
      modifies this`effects
      ensures Valid()
      ensures effects == old(effects) + (if hasRecognizer then [RecognitionStop] else []) + [PlaybackStop]
    {
      if hasRecognizer {
        effects := effects + [RecognitionStop];
      }
      effects := effects + [PlaybackStop];
    }
  }
}
