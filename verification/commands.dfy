/** The two length guards on a command string: the one `executeCommand` applies before
    submitting anything, and the one the mic-release handler applies before dispatching
    the transcript. Both measure the trimmed text in UTF-16 code units. */
module Commands {
  import opened Text

  /** The shortest trimmed command, in UTF-16 code units, that gets submitted. */
  const MinCommandLength: nat := 3

  /** `executeCommand` goes ahead unless `!command || command.trim().length < 3`; the
      empty string is the only falsy string and is caught by the length test as well.
      Length is in UTF-16 code units, so two characters can pass when one of them lies
      outside the Basic Multilingual Plane, and three characters always pass. */
  predicate IsValidCommand(command: string)
    ensures IsValidCommand(command) ==> !AllWhitespace(command) && |Trim(command)| >= 2
    ensures |Trim(command)| >= MinCommandLength ==> IsValidCommand(command)
  {
    command != [] && Utf16Length(Trim(command)) >= MinCommandLength
  }

  /** Releasing the mic dispatches the transcript when
      `transcript && transcript.trim().length > 2`, counted in UTF-16 code units like the
      validation guard. */
  predicate ReleaseDispatches(transcript: string)
    ensures ReleaseDispatches(transcript) ==> !AllWhitespace(transcript) && |Trim(transcript)| >= 2
    ensures |Trim(transcript)| > 2 ==> ReleaseDispatches(transcript)
  {
    transcript != [] && Utf16Length(Trim(transcript)) > 2
  }

  /** The release threshold and the validation guard accept the same strings, so a
      dispatch triggered by releasing the mic is never turned away by validation. */
  lemma {:induction false} ReleaseThresholdMatchesValidation(t: string)
    ensures ReleaseDispatches(t) <==> IsValidCommand(t)
  {
  }

  /** Blank input, such as holding the mic without speaking, is never dispatched. */
  lemma {:induction false} BlankNeverDispatched(t: string)
    requires AllWhitespace(t)
    ensures !IsValidCommand(t) && !ReleaseDispatches(t)
  {
  }
}
