/** The one-sentence reconcile note in front of a re-sent prompt. */
module Preface {
  import opened Utf16

  type Mark = t: Text | t != [] witness [0]

  const INTERRUPTION_PREFACE: Mark :=
    U("NOTE: ") +
    U("a previous attempt at this step may have been interrupted. ") +
    U("The working tree may contain partial or uncommitted work from it. ") +
    U("Reconcile whatever you find with the task below and continue.\n\n")

  /** `text` without the `mark`s it starts with. */
  function Stripped(text: Text, mark: Mark): (rest: Text)
    ensures !(mark <= rest)
    ensures |rest| <= |text|
  {
    if mark <= text then Stripped(text[|mark|..], mark) else text
  }

  function Copies(n: nat, mark: Mark): Text {
    if n == 0 then [] else mark + Copies(n - 1, mark)
  }

  /** The loop that removes the prefaces earlier re-sends added; `mark` is the preface. */
  method StripPrefaces(prompt: Text, mark: Mark) returns (remaining: Text)
    ensures !(mark <= remaining)
    ensures exists n: nat :: prompt == Copies(n, mark) + remaining
    ensures remaining == Stripped(prompt, mark)
  {
    remaining := prompt;
    ghost var removed: nat := 0;
    assert Copies(0, mark) + prompt == prompt;
    while mark <= remaining
      invariant prompt == Copies(removed, mark) + remaining
      invariant Stripped(remaining, mark) == Stripped(prompt, mark)
      decreases |remaining|
    {
      PeelOne(removed, mark, remaining);
      remaining := remaining[|mark|..];
      removed := removed + 1;
    }
  }

  /** A text under exactly one mark. */
  function Once(text: Text, mark: Mark): Text {
    mark + Stripped(text, mark)
  }

  /** What a re-send puts on the wire: one preface, then the prompt without any it already had. */
  method Resend(prompt: Text, mark: Mark) returns (resent: Text)
    ensures resent == Once(prompt, mark)
  {
    var body := StripPrefaces(prompt, mark);
    resent := mark + body;
  }

  lemma {:induction false} CopiesSnoc(n: nat, mark: Mark)
    ensures Copies(n + 1, mark) == Copies(n, mark) + mark
  {
    if n > 0 {
      CopiesSnoc(n - 1, mark);
    }
  }

  lemma PeelOne(n: nat, mark: Mark, text: Text)
    requires mark <= text
    ensures |text[|mark|..]| < |text|
    ensures Copies(n, mark) + text == Copies(n + 1, mark) + text[|mark|..]
    ensures Stripped(text[|mark|..], mark) == Stripped(text, mark)
  {
    CopiesSnoc(n, mark);
    assert text == mark + text[|mark|..];
    assert Copies(n, mark) + (mark + text[|mark|..]) == (Copies(n, mark) + mark) + text[|mark|..];
  }

  /** Stripping gives back the body however many prefaces were stacked in front of it. */
  lemma {:induction false} StrippedCopies(n: nat, mark: Mark, body: Text)
    requires !(mark <= body)
    ensures Stripped(Copies(n, mark) + body, mark) == body
  {
    if n == 0 {
      assert [] + body == body;
    } else {
      StrippedCopies(n - 1, mark, body);
      var text := Copies(n, mark) + body;
      assert text[|mark|..] == Copies(n - 1, mark) + body;
      assert mark <= text;
    }
  }

  lemma StrippingIsIdempotent(text: Text, mark: Mark)
    ensures Stripped(Stripped(text, mark), mark) == Stripped(text, mark)
  {}

  /** Whatever number of marks a text was sent under, it is re-sent under one. */
  lemma OnceOverCopies(n: nat, mark: Mark, body: Text)
    requires !(mark <= body)
    ensures Once(Copies(n, mark) + body, mark) == Copies(1, mark) + body
  {
    StrippedCopies(n, mark, body);
    assert Copies(1, mark) == mark + [] == mark;
  }

  /** A re-sent prompt carries exactly one preface and the unchanged body, after any number of
      interruptions: re-sending a re-sent prompt changes nothing. */
  lemma ResendingIsStable(text: Text, mark: Mark)
    ensures Stripped(mark + Stripped(text, mark), mark) == Stripped(text, mark)
    ensures Once(Once(text, mark), mark) == Once(text, mark)
  {
    var resent := mark + Stripped(text, mark);
    assert resent[|mark|..] == Stripped(text, mark);
  }

  /** The program's prompts start with "You are", "Batch" or "The reviewer": none starts with its note, whatever
      is filled in. */
  lemma TemplatesAreUnmarked(opening: Text, rest: Text)
    requires opening in {U("You are the "), U("Batch "), U("The reviewer examined your Batch ")}
    ensures !(INTERRUPTION_PREFACE <= opening + rest)
  {
    var note, you, batch, reviewer := "NOTE: ", "You are the ", "Batch ", "The reviewer examined your Batch ";
    assert U(note)[0] == (note[0] as int % 0x1_0000) as CodeUnit == 78;
    assert U(you)[0] == (you[0] as int % 0x1_0000) as CodeUnit == 89;
    assert U(batch)[0] == (batch[0] as int % 0x1_0000) as CodeUnit == 66;
    assert U(reviewer)[0] == (reviewer[0] as int % 0x1_0000) as CodeUnit == 84;
    assert INTERRUPTION_PREFACE[0] == 78 && opening[0] != 78;
    assert (opening + rest)[0] == opening[0];
  }
}
