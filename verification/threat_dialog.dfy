/**
 * `show_threat_dialog` (Support/bin/llm_common.py): the two string literals it
 * builds for the AppleScript dialog and the decision it takes from the
 * button the user clicked. Running the script is left to a parameter: the
 * dialog's result arrives as an optional string.
 */
module ThreatDialog {
  import opened Wrappers
  import opened AppleScriptText

  const MoveButton: string := "Move to Junk"
  const KeepButton: string := "Keep"
  const ReasonLabel: string := "\n\nReason: "
  const Question: string := "\n\nMove to Junk folder?"

  /**
   * The body of the dialog's message literal. The reason is escaped; the
   * threat type is inserted as it is.
   */
  function PromptLiteral(threatType: string, reason: string): (p: string)
    ensures |threatType| + |Question| <= |p|
    ensures p[..|threatType|] == threatType
    ensures p[|p| - |Question|..] == Question
    ensures p[|threatType|..] == Escape(ReasonLabel + reason + Question)
  {
    FixedTextsUnchanged();
    EscapeAppend(ReasonLabel, reason);
    EscapeAppend(ReasonLabel + reason, Question);
    assert threatType + ReasonLabel + Escape(reason) + Question
        == threatType + (ReasonLabel + Escape(reason) + Question);
    threatType + ReasonLabel + Escape(reason) + Question
  }

  /** The body of the dialog's title literal. */
  function TitleLiteral(title: string): string
  {
    Escape(title)
  }

  /** The dialog's fixed texts hold neither a backslash nor a quote, so escaping keeps them. */
  lemma FixedTextsUnchanged()
    ensures Escape(ReasonLabel) == ReasonLabel && Escape(Question) == Question
  {
    assert forall i :: 0 <= i < |ReasonLabel| ==> ReasonLabel[i] != Backslash && ReasonLabel[i] != Quote;
    assert forall i :: 0 <= i < |Question| ==> Question[i] != Backslash && Question[i] != Quote;
  }

  /** The dialog asks to move the message exactly when the clicked button is "Move to Junk". */
  function MoveChosen(dialogResult: Option<string>): (move: bool)
    ensures move <==> dialogResult.Some? && dialogResult.value == MoveButton
  {
    dialogResult == Some(MoveButton)
  }

  /** A failed or cancelled dialog, or the "Keep" button, never moves the message. */
  lemma KeepOrFailureNeverMoves()
    ensures !MoveChosen(None)
    ensures !MoveChosen(Some(KeepButton))
  {
  }

  /** Whatever the title, AppleScript reads the title literal back as the title. */
  lemma TitleReadsBack(title: string, rest: string)
    ensures ReadLiteral(TitleLiteral(title) + [Quote] + rest) == Some(Lexed(title, rest))
  {
    LiteralRoundTrip(title, rest);
  }

  /**
   * When the threat type holds neither a backslash nor a quote, AppleScript
   * reads the message literal back as the intended text, whatever the reason.
   */
  lemma PromptReadsBack(threatType: string, reason: string, rest: string)
    requires Backslash !in threatType && Quote !in threatType
    ensures ReadLiteral(PromptLiteral(threatType, reason) + [Quote] + rest)
         == Some(Lexed(threatType + ReasonLabel + reason + Question, rest))
  {
    FixedTextsUnchanged();
    EscapeAppend(threatType, ReasonLabel);
    EscapeAppend(threatType + ReasonLabel, reason);
    EscapeAppend(threatType + ReasonLabel + reason, Question);
    assert PromptLiteral(threatType, reason) == Escape(threatType + ReasonLabel + reason + Question);
    LiteralRoundTrip(threatType + ReasonLabel + reason, rest);
    LiteralRoundTrip(threatType + ReasonLabel + reason + Question, rest);
  }

  /**
   * Because the threat type is not escaped, a threat type of one double quote
   * ends the message literal at once: AppleScript reads an empty message and
   * takes the rest of the prompt as script text.
   */
  lemma QuoteInThreatTypeEndsLiteral(reason: string, rest: string)
    ensures var p := PromptLiteral([Quote], reason);
            ReadLiteral(p + [Quote] + rest) == Some(Lexed([], p[1..] + [Quote] + rest))
  {
    var p := PromptLiteral([Quote], reason);
    var s := p + [Quote] + rest;
    assert s[0] == Quote;
    assert s[1..] == p[1..] + [Quote] + rest;
  }
}
