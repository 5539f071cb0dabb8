/** Which of the three screens the component renders. A browser without speech recognition
    gets the support notice; otherwise a denied microphone gets the blocked notice; only
    then is the wizard (mic button, quick commands, history) shown. */
module Screens {

  /** The microphone permission as the permissions API reports it. */
  datatype MicPermission = Granted | Denied | Prompt

  datatype Screen = UnsupportedNotice | MicBlockedNotice | Wizard

  /** The render gating: the support check comes first, the permission check second, so
      an unsupported browser shows the support notice whatever the permission. The mic
      button and the quick-command buttons exist only on the wizard screen. */
  function ScreenFor(supported: bool, mic: MicPermission): (s: Screen)
    ensures !supported ==> s == UnsupportedNotice
    ensures supported ==> (s == MicBlockedNotice <==> mic == Denied)
    ensures s == Wizard <==> supported && mic != Denied
  {
    if !supported then UnsupportedNotice
    else if mic == Denied then MicBlockedNotice
    else Wizard
  }
}
