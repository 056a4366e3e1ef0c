/**
 The normal form in which contents survive a passage through chat completions: only texts and calls, no empty text, and
 adjacent texts of one phase merged. It is what the transcript of the contents determines.
 */
module ChatNormalForm {
  import opened Basics
  import opened ChatTypes

  function NormalPhase(p: Phase): Phase {
    if p.Reasoning? then Reasoning else Normal
  }

  predicate Extends(out: seq<Content>, phase: Phase) {
    out != [] && out[|out| - 1].body.Text? && out[|out| - 1].phase == phase
  }

  function PushText(out: seq<Content>, phase: Phase, text: string): seq<Content> {
    if text == "" then out
    else if Extends(out, phase) then
      var n := |out| - 1;
      out[n := out[n].(body := Text(out[n].body.text + text))]
    else out + [Content("", Some(|out|), phase, "", Text(text))]
  }

  function PushCall(out: seq<Content>, callId: string, name: string, input: string): seq<Content> {
    out + [Content("", Some(|out|), Normal, "", ToolUse(callId, name, if input == "" then [] else [input]))]
  }

  function Push(out: seq<Content>, c: Content): seq<Content> {
    match c.body
    case Text(text) => PushText(out, NormalPhase(c.phase), text)
    case ToolUse(callId, name, inputs) => PushCall(out, callId, name, TextualInput(inputs))
    case _ => out
  }

  function Normalized(cs: seq<Content>): seq<Content> {
    if cs == [] then [] else Push(Normalized(cs[..|cs| - 1]), cs[|cs| - 1])
  }

  lemma NormalizedMore(cs: seq<Content>, c: Content)
    ensures Normalized(cs + [c]) == Push(Normalized(cs), c)
  {
    assert (cs + [c])[..|cs|] == cs;
  }

  lemma PushTwice(out: seq<Content>, phase: Phase, s: string, t: string)
    ensures PushText(PushText(out, phase, s), phase, t) == PushText(out, phase, s + t)
  {
    if s == "" {
      assert s + t == t;
    } else if t == "" {
      assert s + t == s;
    } else if Extends(out, phase) {
      AppendAssociates(out[|out| - 1].body.text, s, t);
    }
  }

  // ----- The transcript -----

  /** One character said or thought, or one call. */
  datatype Mark = Uttered(phase: Phase, ch: char) | Called(callId: string, name: string, input: string)

  function Utterance(phase: Phase, text: string): (r: seq<Mark>)
    ensures |r| == |text|
  {
    if text == "" then [] else Utterance(phase, text[..|text| - 1]) + [Uttered(phase, text[|text| - 1])]
  }

  function MarksOf(c: Content): seq<Mark> {
    match c.body
    case Text(text) => Utterance(NormalPhase(c.phase), text)
    case ToolUse(callId, name, inputs) => [Called(callId, name, TextualInput(inputs))]
    case _ => []
  }

  function Transcript(cs: seq<Content>): seq<Mark> {
    if cs == [] then [] else Transcript(cs[..|cs| - 1]) + MarksOf(cs[|cs| - 1])
  }

  function PushMark(out: seq<Content>, m: Mark): seq<Content> {
    match m
    case Uttered(phase, ch) => PushText(out, phase, [ch])
    case Called(callId, name, input) => PushCall(out, callId, name, input)
  }

  function PushMarks(out: seq<Content>, ms: seq<Mark>): seq<Content> {
    if ms == [] then out else PushMark(PushMarks(out, ms[..|ms| - 1]), ms[|ms| - 1])
  }

  lemma {:induction false} PushMarksAppend(out: seq<Content>, xs: seq<Mark>, ys: seq<Mark>)
    ensures PushMarks(out, xs + ys) == PushMarks(PushMarks(out, xs), ys)
    decreases ys
  {
    if ys == [] {
      assert xs + ys == xs;
    } else {
      assert (xs + ys)[..|xs + ys| - 1] == xs + ys[..|ys| - 1];
      hide PushMark;
      PushMarksAppend(out, xs, ys[..|ys| - 1]);
    }
  }

  lemma {:induction false} UtterancePushed(out: seq<Content>, phase: Phase, text: string)
    ensures PushMarks(out, Utterance(phase, text)) == PushText(out, phase, text)
    decreases text
  {
    if text != "" {
      var n := |text| - 1;
      UtterancePushed(out, phase, text[..n]);
      PushTwice(out, phase, text[..n], [text[n]]);
      assert text[..n] + [text[n]] == text;
      assert Utterance(phase, text)[..n] == Utterance(phase, text[..n]);
      hide PushText;
    }
  }

  /** The normal form is read off the transcript. */
  lemma {:induction false} NormalizedFromTranscript(cs: seq<Content>)
    ensures Normalized(cs) == PushMarks([], Transcript(cs))
  {
    if cs != [] {
      var front, c := cs[..|cs| - 1], cs[|cs| - 1];
      NormalizedFromTranscript(front);
      PushMarksAppend([], Transcript(front), MarksOf(c));
      if c.body.Text? {
        UtterancePushed(Normalized(front), NormalPhase(c.phase), c.body.text);
      }
    }
  }

  /** Contents with the same transcript have the same normal form. */
  lemma SameTranscript(a: seq<Content>, b: seq<Content>)
    requires Transcript(a) == Transcript(b)
    ensures Normalized(a) == Normalized(b)
  {
    NormalizedFromTranscript(a);
    NormalizedFromTranscript(b);
  }

  // ----- The normal form says the same -----

  lemma {:induction false} UtteranceAppend(phase: Phase, s: string, t: string)
    ensures Utterance(phase, s + t) == Utterance(phase, s) + Utterance(phase, t)
    decreases t
  {
    if t == "" {
      assert s + t == s;
    } else {
      assert (s + t)[..|s + t| - 1] == s + t[..|t| - 1];
      UtteranceAppend(phase, s, t[..|t| - 1]);
    }
  }

  lemma TranscriptMore(cs: seq<Content>, c: Content)
    ensures Transcript(cs + [c]) == Transcript(cs) + MarksOf(c)
  {
    assert (cs + [c])[..|cs|] == cs;
  }

  lemma PushTextSays(out: seq<Content>, phase: Phase, text: string)
    requires phase == NormalPhase(phase)
    ensures Transcript(PushText(out, phase, text)) == Transcript(out) + Utterance(phase, text)
  {
    if text == "" {
      assert Transcript(out) + [] == Transcript(out);
    } else if Extends(out, phase) {
      LongerSays(out, phase, text);
    } else {
      TranscriptMore(out, Content("", Some(|out|), phase, "", Text(text)));
      hide Utterance, Transcript;
    }
  }

  lemma LongerSays(out: seq<Content>, phase: Phase, text: string)
    requires Extends(out, phase) && phase == NormalPhase(phase)
    ensures var n := |out| - 1;
            Transcript(out[n := out[n].(body := Text(out[n].body.text + text))]) == Transcript(out) + Utterance(phase, text)
  {
    var n := |out| - 1;
    var front, last := out[..n], out[n];
    var c := last.(body := Text(last.body.text + text));
    assert front + [last] == out && out[n := c] == front + [c];
    UtteranceAppend(phase, last.body.text, text);
    hide Utterance, Transcript;
    TranscriptMore(front, last);
    TranscriptMore(front, c);
    AppendAssociates(Transcript(front), Utterance(phase, last.body.text), Utterance(phase, text));
  }

  lemma PushCallSays(out: seq<Content>, callId: string, name: string, input: string)
    ensures Transcript(PushCall(out, callId, name, input)) == Transcript(out) + [Called(callId, name, input)]
  {
    TranscriptMore(out, Content("", Some(|out|), Normal, "", ToolUse(callId, name, if input == "" then [] else [input])));
    if input != "" {
      assert [input][1..] == [] && input + "" == input;
      assert TextualInput([input]) == input;
    }
  }

  /** Normalizing keeps the transcript. */
  lemma {:induction false} NormalizedSays(cs: seq<Content>)
    ensures Transcript(Normalized(cs)) == Transcript(cs)
  {
    if cs != [] {
      var front, c := cs[..|cs| - 1], cs[|cs| - 1];
      NormalizedSays(front);
      if c.body.Text? {
        PushTextSays(Normalized(front), NormalPhase(c.phase), c.body.text);
      } else if c.body.ToolUse? {
        PushCallSays(Normalized(front), c.body.callId, c.body.name, TextualInput(c.body.inputs));
      }
    }
  }

  /** Nothing empty, nothing left to merge, positions as indices. */
  ghost predicate Merged(cs: seq<Content>) {
    forall k | 0 <= k < |cs| ::
      && cs[k].id == "" && cs[k].signature == "" && cs[k].index == Some(k) && cs[k].phase == NormalPhase(cs[k].phase)
      && (cs[k].body.Text? || cs[k].body.ToolUse?)
      && (cs[k].body.Text? ==> cs[k].body.text != "" && !Extends(cs[..k], cs[k].phase))
  }

  lemma PushMerged(out: seq<Content>, c: Content)
    requires Merged(out)
    ensures Merged(Push(out, c))
  {
    var r := Push(out, c);
    assert forall k | 0 <= k < |out| && k < |r| - 1 :: r[..k] == out[..k] && r[k] == out[k];
    if |r| == |out| && r != [] {
      assert r[..|r| - 1] == out[..|r| - 1];
    } else if |r| > |out| {
      assert r[..|out|] == out;
    }
  }

  lemma {:induction false} NormalizedMerged(cs: seq<Content>)
    ensures Merged(Normalized(cs))
  {
    if cs != [] {
      NormalizedMerged(cs[..|cs| - 1]);
      PushMerged(Normalized(cs[..|cs| - 1]), cs[|cs| - 1]);
    }
  }
}
