/** Chat messages and the two ways the code turns a history into text:
    one line per message each ended by a newline (the `forEach` with `+=`),
    or the lines joined by newlines (the `map`/`join`). */
module Conversation {
  import opened Text

  datatype Message = Message(role: string, content: string)

  const StudentLabel := "学生"
  const MentorLabel := "メンター"

  /** `msg.role === 'user'` picks the student label; every other role,
      `assistant` or anything else, is the mentor. */
  function Speaker(m: Message): (r: string)
    ensures r == StudentLabel <==> m.role == "user"
    ensures r == MentorLabel <==> m.role != "user"
  {
    if m.role == "user" then StudentLabel else MentorLabel
  }

  function Line(m: Message): string {
    Speaker(m) + ": " + m.content
  }

  function Lines(h: seq<Message>): (r: seq<string>)
    ensures |r| == |h| && forall i :: 0 <= i < |h| ==> r[i] == Line(h[i])
  {
    if h == [] then [] else [Line(h[0])] + Lines(h[1..])
  }

  /** Every message as `<label>: <content>` followed by a newline, in
      history order. */
  function Transcript(h: seq<Message>): (r: string)
    ensures r == "" <==> h == []
    ensures h != [] ==> r[|r| - 1] == '\n'
  {
    if h == [] then "" else Line(h[0]) + "\n" + Transcript(h[1..])
  }

  /** The messages' lines joined by newlines: it opens with the first
      message's line and closes with the last one's, with no trailing
      newline. */
  function Summary(h: seq<Message>): (r: string)
    ensures h == [] ==> r == ""
    ensures h != [] ==> Line(h[0]) <= r
    ensures h != [] ==> |Line(h[|h| - 1])| <= |r| && r[|r| - |Line(h[|h| - 1])|..] == Line(h[|h| - 1])
  {
    var lines := Lines(h);
    assert h != [] ==> lines[0] == Line(h[0]) && lines[|lines| - 1] == Line(h[|h| - 1]);
    Join(lines, "\n")
  }

  /** Appends one line per message to `prompt`, as the `forEach` loops do. */
  method AppendTranscript(prompt: string, history: seq<Message>) returns (r: string)
    ensures r == prompt + Transcript(history)
  {
    r := prompt;
    var i := 0;
    while i < |history|
      invariant 0 <= i <= |history|
      invariant r == prompt + Transcript(history[..i])
    {
      var msg := history[i];
      var line;
      if msg.role == "user" {
        line := StudentLabel + ": " + msg.content + "\n";
      } else {
        line := MentorLabel + ": " + msg.content + "\n";
      }
      assert line == Line(msg) + "\n";
      StepAppend(prompt, history, i, r, line);
      r := r + line;
      i := i + 1;
    }
    assert history[..i] == history;
  }

  lemma StepAppend(prompt: string, h: seq<Message>, i: nat, r: string, line: string)
    requires i < |h| && r == prompt + Transcript(h[..i]) && line == Line(h[i]) + "\n"
    ensures r + line == prompt + Transcript(h[..i + 1])
  {
    TranscriptStep(h, i);
  }

  lemma TranscriptOne(m: Message)
    ensures Transcript([m]) == Line(m) + "\n"
  {
    assert [m][1..] == [];
  }

  lemma TranscriptStep(h: seq<Message>, i: nat)
    requires i < |h|
    ensures Transcript(h[..i + 1]) == Transcript(h[..i]) + (Line(h[i]) + "\n")
  {
    assert h[..i] + [h[i]] == h[..i + 1];
    TranscriptOne(h[i]);
    TranscriptAppend(h[..i], [h[i]]);
  }

  lemma {:induction false} TranscriptAppend(a: seq<Message>, b: seq<Message>)
    ensures Transcript(a + b) == Transcript(a) + Transcript(b)
  {
    if a == [] {
      assert a + b == b;
    } else {
      var first := Line(a[0]) + "\n";
      assert (a + b)[0] == a[0];
      assert (a + b)[1..] == a[1..] + b;
      TranscriptAppend(a[1..], b);
      assert Transcript(a + b) == first + Transcript(a[1..] + b);
      Regroup(first, Transcript(a[1..]), Transcript(b));
    }
  }

  lemma SummaryCons(m: Message, h: seq<Message>)
    requires h != []
    ensures Summary([m] + h) == Line(m) + "\n" + Summary(h)
  {
    assert ([m] + h)[1..] == h;
    assert Lines([m] + h)[1..] == Lines(h);
  }

  /** The two renderings agree: the newline-terminated transcript is the
      joined summary plus one final newline, when there is any message. */
  lemma {:induction false} TranscriptIsSummary(h: seq<Message>)
    ensures Transcript(h) == if h == [] then "" else Summary(h) + "\n"
  {
    if |h| > 1 {
      TranscriptIsSummary(h[1..]);
      assert Lines(h)[1..] == Lines(h[1..]);
    }
  }

  lemma LineHasNoNewline(m: Message)
    requires '\n' !in m.content
    ensures '\n' !in Line(m)
  {
    assert '\n' !in StudentLabel && '\n' !in MentorLabel;
  }

  /** When no content holds a newline, splitting the summary at newlines
      gives back one line per message, in order. */
  lemma SummaryLines(h: seq<Message>)
    requires h != []
    requires forall i :: 0 <= i < |h| ==> '\n' !in h[i].content
    ensures SplitOn(Summary(h), '\n') == Lines(h)
  {
    var ls := Lines(h);
    forall k | 0 <= k < |ls| ensures '\n' !in ls[k] {
      LineHasNoNewline(h[k]);
    }
    SplitJoin(ls, '\n');
  }
}
