/** The voice-command session controller of `HinglishVoiceWizard`: one session record and
    the event handlers that update it. What the handlers do to the outside world (tones,
    starting and stopping speech capture, the POST to the execution service, the 2-second
    timer) is returned as a list of effects instead of being performed; what the outside
    world answers (microphone access, the live transcript, the service's reply) comes in
    as a parameter. */
module Session {
  import opened Commands
  import opened History
  import opened Vibes
  import opened Screens

  const ReadyForMagicStatus: string := "🎤 Ready for magic commands!"
  const InvalidCommandStatus: string := "Please say a valid command! 🎤"
  const NetworkErrorStatus: string := "❌ Network error! Check if backend is running on port 5000 🚀"
  const ListeningStatus: string := "🎤 Listening... Speak your command!"
  const MicDeniedStatus: string := "❌ Microphone access denied! Please allow microphone permission."
  const NoCommandStatus: string := "No command detected. Try again! 🎤"
  const ReadyNextStatus: string := "🎤 Ready for next command!"

  /** The status shown while a submitted command waits for the service. It quotes the
      command untrimmed, so the command can be read back from it. */
  function ProcessingStatus(command: string): (s: string)
    ensures |s| == |command| + 19
    ensures s[13..13 + |command|] == command
  {
    "Processing: \"" + command + "\"... ✨"
  }

  /** The processing status can never be mistaken for the validation rejection. */
  lemma {:induction false} ProcessingIsNotRejection(command: string)
    ensures ProcessingStatus(command) != InvalidCommandStatus
  {
    assert ProcessingStatus(command)[1] == 'r' != InvalidCommandStatus[1];
  }

  /** The phrases behind the quick-command buttons, each submitted as is. */
  const QuickCommands: seq<string> :=
    ["whatsapp kholo", "edge kholo", "youtube kholo", "notepad kholo", "spotify kholo"]

  const ExecuteUrl: string := "http://localhost:5000/api/execute"
  const RecognitionLanguage: string := "en-IN"

  /** How long a service reply stays on screen before the display resets. */
  const DisplayWindowMs: nat := 2000

  datatype Tone = SuccessTone | ErrorTone | ClickTone

  /** The JSON body `{command, vibe}` posted to the execution service. */
  datatype CommandRequest = CommandRequest(command: string, vibe: string)

  /** What came back for a request: a decoded `{success, message}` body, or a failure of
      the transport or of the JSON decoding (both land in the same `catch`). */
  datatype Outcome = NetworkFailure | Response(success: bool, message: string)

  datatype Effect =
    | Play(tone: Tone)
    | StartCapture(language: string, continuous: bool)
    | StopCapture
    | Post(url: string, request: CommandRequest)
    | ScheduleDisplayReset(delayMs: nat)

  /** The effects of a submission that passed validation: capture stops and a click plays
      before the one request, which goes to the execution endpoint. */
  function SubmitEffects(request: CommandRequest): (effects: seq<Effect>)
    ensures Post(ExecuteUrl, request) in effects
    ensures forall i :: 0 <= i < |effects| && effects[i].Post? ==>
      i == |effects| - 1 && effects[i] == Post(ExecuteUrl, request)
    ensures StopCapture in effects && ScheduleDisplayReset(DisplayWindowMs) !in effects
  {
    [StopCapture, Play(ClickTone), Post(ExecuteUrl, request)]
  }

  /** The effects of handling a decoded reply: the success tone exactly for a success,
      the error tone otherwise, then the display reset; nothing is posted. */
  function ReplyEffects(success: bool): (effects: seq<Effect>)
    ensures Play(SuccessTone) in effects <==> success
    ensures Play(ErrorTone) in effects <==> !success
    ensures effects[|effects| - 1] == ScheduleDisplayReset(DisplayWindowMs)
    ensures forall e :: e in effects ==> !e.Post?
  {
    [Play(if success then SuccessTone else ErrorTone), ScheduleDisplayReset(DisplayWindowMs)]
  }

  class SessionState {
    var status: string
    var currentVibe: string
    var history: seq<HistoryEntry>
    var isListening: bool
    /** The speech library's live transcript, which the component can only clear. */
    var transcript: string
    var micPermission: MicPermission

    /** The vibe is always one of the six tags and the log never exceeds five entries. */
    ghost predicate Valid()
      reads this`currentVibe, this`history
    {
      currentVibe in VibeKeys && |history| <= Capacity
    }

    /** The initial `useState` values. */
    constructor ()
      ensures Valid()
      ensures status == ReadyForMagicStatus && currentVibe == InitialVibe && history == []
      ensures !isListening && transcript == [] && micPermission == Prompt
    {
      status := ReadyForMagicStatus;
      currentVibe := InitialVibe;
      history := [];
      isListening := false;
      transcript := [];
      micPermission := Prompt;
    }

    /** The permissions API reported a state, on load or later through `onchange`. */
    method ObservePermission(p: MicPermission)
      modifies this`micPermission
      ensures micPermission == p
    {
      micPermission := p;
    }

    /** The speech library published a new transcript. */
    method TranscriptChanged(t: string)
      modifies this`transcript
      ensures transcript == t && isListening == old(isListening)
    {
      transcript := t;
    }

    /** Mic pressed. With microphone access the session starts listening on a cleared
        transcript; without it the permission is marked denied and nothing else about
        listening changes. History and vibe are never touched. */
    method StartListening(micGranted: bool) returns (effects: seq<Effect>)
      modifies this`status, this`isListening, this`transcript, this`micPermission
      ensures micGranted ==>
        isListening && transcript == [] && status == ListeningStatus
        && micPermission == old(micPermission)
        && effects == [Play(ClickTone), StartCapture(RecognitionLanguage, true)]
      ensures !micGranted ==>
        isListening == old(isListening) && transcript == old(transcript)
        && status == MicDeniedStatus && micPermission == Denied
        && effects == [Play(ErrorTone)]
    {
      if micGranted {
        isListening := true;
        transcript := [];
        effects := [Play(ClickTone), StartCapture(RecognitionLanguage, true)];
        status := ListeningStatus;
      } else {
        status := MicDeniedStatus;
        effects := [Play(ErrorTone)];
        micPermission := Denied;
      }
    }

    /** The synchronous part of `executeCommand`: a command that fails validation only
        changes the status; one that passes stops listening and is posted together with
        the vibe current at this moment. */
    method Dispatch(command: string) returns (effects: seq<Effect>)
      modifies this`status, this`isListening
      ensures IsValidCommand(command) ==>
        !isListening && status == ProcessingStatus(command)
        && effects == SubmitEffects(CommandRequest(command, currentVibe))
      ensures !IsValidCommand(command) ==>
        isListening == old(isListening) && status == InvalidCommandStatus && effects == []
    {
      if !IsValidCommand(command) {
        status := InvalidCommandStatus;
        effects := [];
        return;
      }
      isListening := false;
      effects := SubmitEffects(CommandRequest(command, currentVibe));
      status := ProcessingStatus(command);
    }

    /** The part of `executeCommand` after the `await`s. A decoded reply is logged, its
        message shown and the display reset scheduled; a successful one moves the vibe on
        from the vibe the request carried. A network or decoding failure only shows the
        network-error status: no log entry, no vibe change, no reset. */
    method Settle(request: CommandRequest, outcome: Outcome) returns (effects: seq<Effect>)
      requires Valid()
      modifies this`status, this`history, this`currentVibe
      ensures Valid()
      ensures outcome.NetworkFailure? ==>
        status == NetworkErrorStatus && history == old(history)
        && currentVibe == old(currentVibe) && effects == [Play(ErrorTone)]
      ensures outcome.Response? ==>
        history == Append(old(history), HistoryEntry(request.command, outcome.success))
        && status == outcome.message
        && currentVibe == (if outcome.success then NextVibe(request.vibe) else old(currentVibe))
        && effects == ReplyEffects(outcome.success)
    {
      match outcome {
        case NetworkFailure =>
          status := NetworkErrorStatus;
          effects := [Play(ErrorTone)];
        case Response(success, message) =>
          history := Append(history, HistoryEntry(request.command, success));
          status := message;
          if success {
            currentVibe := NextVibe(request.vibe);
          }
          effects := ReplyEffects(success);
      }
    }

    /** `executeCommand` run to completion with no other event in between, as a quick
        command button or a mic release does when nothing else happens meanwhile. */
    method ExecuteCommand(command: string, outcome: Outcome) returns (effects: seq<Effect>)
      requires Valid()
      modifies this`status, this`isListening, this`history, this`currentVibe
      ensures Valid()
      ensures !IsValidCommand(command) ==>
        status == InvalidCommandStatus && isListening == old(isListening)
        && history == old(history) && currentVibe == old(currentVibe) && effects == []
      ensures IsValidCommand(command) ==> !isListening
      ensures IsValidCommand(command) && outcome.NetworkFailure? ==>
        status == NetworkErrorStatus && history == old(history) && currentVibe == old(currentVibe)
        && effects == SubmitEffects(CommandRequest(command, old(currentVibe))) + [Play(ErrorTone)]
      ensures IsValidCommand(command) && outcome.Response? ==>
        history == Append(old(history), HistoryEntry(command, outcome.success))
        && status == outcome.message
        && currentVibe == (if outcome.success then NextVibe(old(currentVibe)) else old(currentVibe))
        && effects == SubmitEffects(CommandRequest(command, old(currentVibe)))
                      + ReplyEffects(outcome.success)
    {
      effects := Dispatch(command);
      if IsValidCommand(command) {
        var more := Settle(CommandRequest(command, currentVibe), outcome);
        effects := effects + more;
      }
    }

    /** Mic released. Listening always stops; the transcript is dispatched only when its
        trimmed length exceeds two, otherwise the status asks to try again. Either way the
        status never becomes the validation rejection, and history and vibe are untouched
        until a reply arrives. */
    method StopListening() returns (effects: seq<Effect>)
      modifies this`status, this`isListening
      ensures !isListening
      ensures ReleaseDispatches(transcript) ==>
        status == ProcessingStatus(transcript)
        && effects == [StopCapture] + SubmitEffects(CommandRequest(transcript, currentVibe))
      ensures !ReleaseDispatches(transcript) ==>
        status == NoCommandStatus && effects == [StopCapture]
      ensures status != InvalidCommandStatus
    {
      isListening := false;
      effects := [StopCapture];
      if ReleaseDispatches(transcript) {
        ReleaseThresholdMatchesValidation(transcript);
        var more := Dispatch(transcript);
        effects := effects + more;
        ProcessingIsNotRejection(transcript);
      } else {
        status := NoCommandStatus;
      }
    }

    /** The timer callback, two seconds after a decoded reply: the transcript is cleared
        and the ready prompt shown. Nothing cancels the timer, so it fires whatever has
        happened since. */
    method DisplayReset()
      modifies this`transcript, this`status
      ensures transcript == [] && status == ReadyNextStatus
      ensures isListening == old(isListening)
    {
      transcript := [];
      status := ReadyNextStatus;
    }

    /** The screen the component renders for this session. */
    function CurrentScreen(browserSupportsSpeechRecognition: bool): (s: Screen)
      reads this
      ensures s == Wizard <==> browserSupportsSpeechRecognition && micPermission != Denied
    {
      ScreenFor(browserSupportsSpeechRecognition, micPermission)
    }
  }
}
