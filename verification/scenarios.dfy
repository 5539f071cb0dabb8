/** Walks through the controller's main flows, and two interleavings the code allows,
    using nothing but the contracts of the session's handlers. */
module Scenarios {
  import opened Text
  import opened Commands
  import opened History
  import opened Vibes
  import opened Session

  /** A reply `{success: true}` to "whatsapp kholo" shows the service's message, moves the
      vibe from chill to productive and logs the command as a success. */
  method SuccessfulCommand() {
    var s := new SessionState();
    UnpaddedIsTrimmed("whatsapp kholo");
    var effects := s.ExecuteCommand("whatsapp kholo", Response(true, "Opening WhatsApp"));
    assert s.status == "Opening WhatsApp";
    assert s.currentVibe == NextVibe(InitialVibe) == "productive" by { VibeCycle(); }
    AppendBelowCapacity([], HistoryEntry("whatsapp kholo", true));
    assert s.history == [HistoryEntry("whatsapp kholo", true)];
    assert Post(ExecuteUrl, CommandRequest("whatsapp kholo", "chill")) in effects;
  }

  /** A reply `{success: false}` to "xyz" shows the service's message, keeps the vibe and
      logs the command as a failure. */
  method ServiceReportedFailure() {
    var s := new SessionState();
    UnpaddedIsTrimmed("xyz");
    var effects := s.ExecuteCommand("xyz", Response(false, "App not found"));
    assert s.status == "App not found";
    assert s.currentVibe == "chill";
    assert s.history == [HistoryEntry("xyz", false)];
  }

  /** An unreachable service leaves log and vibe alone, shows the connectivity message and
      schedules no display reset. */
  method UnreachableService(command: string)
    requires IsValidCommand(command)
  {
    var s := new SessionState();
    var effects := s.ExecuteCommand(command, NetworkFailure);
    assert s.status == NetworkErrorStatus;
    assert s.history == [] && s.currentVibe == InitialVibe;
    assert |effects| == 4 && effects[3] == Play(ErrorTone);
  }

  /** Releasing the mic on "hi" submits nothing and asks to try again. */
  method ReleaseOnTooShortTranscript() {
    var s := new SessionState();
    var started := s.StartListening(true);
    s.TranscriptChanged("hi");
    TooShortToDispatch("hi");
    var effects := s.StopListening();
    assert s.status == NoCommandStatus;
    assert !s.isListening && s.history == [];
    assert effects == [StopCapture];
  }

  /** The display reset of one command is not cancelled by starting the next capture: when
      it fires, it wipes the transcript being spoken and replaces the listening prompt. */
  method ResetFiresDuringNextCapture(s: SessionState, request: CommandRequest, message: string, spoken: string)
    requires s.Valid()
    modifies s
  {
    var first := s.Settle(request, Response(true, message));
    assert first[1] == ScheduleDisplayReset(DisplayWindowMs);
    var started := s.StartListening(true);
    s.TranscriptChanged(spoken);
    s.DisplayReset();
    assert s.isListening && s.transcript == [] && s.status == ReadyNextStatus;
  }

  /** Nothing stops a second submission while the first is in flight. Both requests carry
      the vibe of the moment they were sent, and each successful reply moves the vibe on
      from its own request's vibe, so two successes from the same vibe end only one step on; both
      commands are logged. */
  method OverlappingSubmissions(s: SessionState, c1: string, c2: string, m1: string, m2: string)
    requires s.Valid() && s.history == []
    requires IsValidCommand(c1) && IsValidCommand(c2)
    modifies s
  {
    var start := s.currentVibe;
    var e1 := s.Dispatch(c1);
    var e2 := s.Dispatch(c2);
    var r1 := CommandRequest(c1, start);
    var r2 := CommandRequest(c2, start);
    assert Post(ExecuteUrl, r1) in e1 && Post(ExecuteUrl, r2) in e2;
    var d1 := s.Settle(r1, Response(true, m1));
    var d2 := s.Settle(r2, Response(true, m2));
    assert s.currentVibe == NextVibe(start);
    LogTwo(HistoryEntry(c1, true), HistoryEntry(c2, true));
    assert s.history == [HistoryEntry(c1, true), HistoryEntry(c2, true)];
  }

  /** Two replies logged on an empty history are both kept, in arrival order. */
  lemma {:induction false} LogTwo(a: HistoryEntry, b: HistoryEntry)
    ensures Append(Append([], a), b) == [a, b]
  {
    calc {
      Append(Append([], a), b);
      { AppendBelowCapacity([], a); assert [] + [a] == [a]; }
      Append([a], b);
      { AppendBelowCapacity([a], b); }
      [a, b];
    }
  }

  /** A phrase with no blank at either end and at least three characters passes. */
  lemma {:induction false} UnpaddedIsTrimmed(s: string)
    requires |s| >= MinCommandLength
    requires !IsJsWhitespace(s[0]) && !IsJsWhitespace(s[|s| - 1])
    ensures IsValidCommand(s)
  {
    TrimOfUnpadded(s);
  }

  /** Every quick-command button submits a phrase that passes validation, so pressing one
      never shows the rejection status. */
  lemma {:induction false} QuickCommandsAreValid()
    ensures forall i :: 0 <= i < |QuickCommands| ==> IsValidCommand(QuickCommands[i])
  {
    forall i | 0 <= i < |QuickCommands| ensures IsValidCommand(QuickCommands[i]) {
      QuickCommandIsValid(i);
    }
  }

  /** One quick command passes validation: it is unpadded and at least ten long. */
  lemma {:induction false} QuickCommandIsValid(i: nat)
    requires i < |QuickCommands|
    ensures IsValidCommand(QuickCommands[i])
  {
    var c := QuickCommands[i];
    assert |c| >= 10 && c[0] != ' ' && c[|c| - 1] == 'o';
    UnpaddedIsTrimmed(c);
  }

  /** Any two characters inside the Basic Multilingual Plane, whitespace or not, are below
      the release threshold. */
  lemma {:induction false} TooShortToDispatch(t: string)
    requires |t| == 2 && t[0] as int < 0x10000 && t[1] as int < 0x10000
    ensures !ReleaseDispatches(t)
  {
    var a := SkipLeading(t, 0);
    var b := SkipTrailing(t, a, |t|);
    assert Trim(t) == t[a..b];
    Utf16LengthOfBmp(Trim(t));
  }
}
