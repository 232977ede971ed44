/** The prompt sent to the provider: grounding context first, then as much of the recent transcript as fits. */
module BoundedPrompt {
  import opened CreditModel
  import opened DecimalText

  const PROMPT_MAX: nat := 30_000

  datatype Line = Line(fromUser: bool, content: string)

  const BREAK: string := "\n\n"

  /** One labelled segment a non-blank line, oldest first. */
  function Segments(lines: seq<Line>): seq<string> {
    if lines == [] then []
    else
      var text := Strip(lines[0].content);
      (if text == "" then [] else [(if lines[0].fromUser then "User: " else "Assistant: ") + text]) + Segments(lines[1..])
  }

  function Join(segments: seq<string>): string {
    if segments == [] then ""
    else if |segments| == 1 then segments[0]
    else segments[0] + BREAK + Join(segments[1..])
  }

  function Prefix(grounding: Option<string>): string {
    match grounding
    case None => ""
    case Some(context) => "Immutable dashboard snapshot context (JSON):\n" + context + "\n\nConversation:\n"
  }

  /**
    The transcript of lines that gain one: a blank line leaves it as it is, any other stands at its end, after a blank
    line, behind its speaker and without the white space around it.
    */
  lemma {:induction false} TranscriptGrows(lines: seq<Line>, line: Line)
    ensures var (before, after, text) := (Join(Segments(lines)), Join(Segments(lines + [line])), Strip(line.content));
      after == if text == "" then before
               else (if Segments(lines) == [] then "" else before + "\n\n") + (if line.fromUser then "User: " else "Assistant: ") + text
  {
    var added := Segments([line]);
    assert [line][1..] == [];
    SegmentsAppend(lines, [line]);
    if Strip(line.content) != "" {
      JoinAppend(Segments(lines), added[0]);
      assert added == [added[0]];
    } else {
      assert Segments(lines) + added == Segments(lines);
    }
  }

  lemma {:induction false} SegmentsAppend(a: seq<Line>, b: seq<Line>)
    ensures Segments(a + b) == Segments(a) + Segments(b)
  {
    if a == [] {
      assert a + b == b;
    } else {
      SegmentsAppend(a[1..], b);
      assert (a + b)[1..] == a[1..] + b;
    }
  }

  lemma {:induction false} JoinAppend(segments: seq<string>, last: string)
    ensures Join(segments + [last]) == (if segments == [] then "" else Join(segments) + BREAK) + last
  {
    if segments != [] {
      JoinAppend(segments[1..], last);
      assert (segments + [last])[1..] == segments[1..] + [last];
    }
  }

  predicate IsSuffix(t: string, s: string) {
    |t| <= |s| && s[|s| - |t|..] == t
  }

  /** The end of the transcript that a budget leaves. */
  ghost predicate Fits(conversation: string, transcript: string, budget: nat) {
    && IsSuffix(conversation, transcript)
    && |conversation| <= budget
    && (|transcript| <= budget ==> conversation == transcript)
    && (|transcript| > budget ==> |conversation| + 2 >= budget)
  }

  lemma {:induction false} JoinTail(segments: seq<string>, i: nat)
    requires i < |segments|
    requires forall k | 0 <= k < |segments| :: segments[k] != ""
    ensures IsSuffix(Join(segments[i..]), Join(segments))
    ensures i > 0 ==> |Join(segments)| > |Join(segments[i..])| + 2
  {
    if i == 0 {
      assert segments[0..] == segments;
    } else {
      var rest := segments[1..];
      JoinTail(rest, i - 1);
      assert rest[i - 1..] == segments[i..];
      SuffixOfAppend(segments[0] + BREAK, Join(rest));
      SuffixTrans(Join(segments[i..]), Join(rest), Join(segments));
    }
  }

  lemma SuffixOfAppend(a: string, b: string)
    ensures IsSuffix(b, a + b)
  {
  }

  lemma SuffixTrans(a: string, b: string, c: string)
    requires IsSuffix(a, b) && IsSuffix(b, c)
    ensures IsSuffix(a, c) && |a| <= |b| <= |c|
  {
    assert c[|c| - |a|..] == c[|c| - |b|..][|b| - |a|..];
  }

  /** Putting a shortened segment before a joined tail. */
  lemma JoinCut(segment: string, rest: seq<string>, k: nat)
    requires k <= |segment|
    ensures IsSuffix(Join([segment[k..]] + rest), Join([segment] + rest))
    ensures |Join([segment[k..]] + rest)| == |segment| - k + (if rest == [] then 0 else 2 + |Join(rest)|)
  {
    assert ([segment[k..]] + rest)[1..] == rest && ([segment] + rest)[1..] == rest;
    if rest == [] {
    } else {
      var tail := BREAK + Join(rest);
      assert Join([segment] + rest) == segment + tail;
      assert Join([segment[k..]] + rest) == segment[k..] + tail;
      assert (segment + tail)[k..] == segment[k..] + tail;
    }
  }

  /**
    What the selection loop keeps: the room left, and whether the newest segments are taken whole or the oldest of
    them was cut to the very end of the budget.
    */
  ghost predicate Selecting(segments: seq<string>, selected: seq<string>, i: nat, remaining: int, budget: nat) {
    && i <= |segments|
    && (selected == [] <==> i == |segments|)
    && (selected == [] ==> remaining == budget)
    && (selected != [] ==> remaining + |Join(selected)| + 2 == budget && Join(selected) != "" && remaining >= -2)
    && (selected == segments[i..] || CutTo(segments, selected, remaining, budget))
  }

  ghost predicate CutTo(segments: seq<string>, selected: seq<string>, remaining: int, budget: nat) {
    selected != [] && remaining == -2 && IsSuffix(Join(selected), Join(segments)) && budget < |Join(segments)|
  }

  /** One turn of the loop. */
  lemma SelectingStep(segments: seq<string>, selected: seq<string>, i: nat, remaining: int, budget: nat)
    requires Selecting(segments, selected, i, remaining, budget) && i > 0 && remaining > 0
    requires forall k | 0 <= k < |segments| :: segments[k] != ""
    ensures var segment := segments[i - 1];
      var cut := if |segment| > remaining then segment[|segment| - remaining..] else segment;
      Selecting(segments, [cut] + selected, i - 1, remaining - (|cut| + 2), budget)
  {
    hide Join, IsSuffix;
    Whole(segments, selected, i);
    if |segments[i - 1]| > remaining {
      JoinTail(segments, i - 1);
      CutIsLast(segments, segments[i - 1], selected, remaining, budget);
    } else {
      WholeStep(segments, segments[i - 1], selected, i, remaining, budget);
    }
  }

  lemma WholeStep(segments: seq<string>, segment: string, selected: seq<string>, i: nat, remaining: int, budget: nat)
    requires Selecting(segments, selected, i, remaining, budget) && i > 0
    requires 0 < |segment| <= remaining && [segment] + selected == segments[i - 1..]
    ensures Selecting(segments, [segment] + selected, i - 1, remaining - (|segment| + 2), budget)
  {
    JoinUncut(segment, selected);
    hide Join, IsSuffix;
    var taken := [segment] + selected;
    assert taken != [] && |Join(taken)| > 0;
  }

  lemma Whole(segments: seq<string>, selected: seq<string>, i: nat)
    requires 0 < i <= |segments| && selected == segments[i..]
    ensures [segments[i - 1]] + selected == segments[i - 1..]
  {
  }

  lemma CutIsLast(segments: seq<string>, segment: string, selected: seq<string>, remaining: int, budget: nat)
    requires 0 < remaining < |segment|
    requires if selected == [] then remaining == budget else remaining + |Join(selected)| + 2 == budget
    requires IsSuffix(Join([segment] + selected), Join(segments))
    ensures var cut := segment[|segment| - remaining..];
      && |cut| == remaining
      && |Join([cut] + selected)| == budget
      && CutTo(segments, [cut] + selected, -2, budget)
  {
    hide Join, IsSuffix;
    var k := |segment| - remaining;
    JoinCut(segment, selected, k);
    JoinUncut(segment, selected);
    SuffixTrans(Join([segment[k..]] + selected), Join([segment] + selected), Join(segments));
  }

  lemma JoinUncut(segment: string, rest: seq<string>)
    ensures |Join([segment] + rest)| == |segment| + (if rest == [] then 0 else 2 + |Join(rest)|)
  {
    assert ([segment] + rest)[1..] == rest;
  }

  /** When the loop stops, the joined selection is the end of the transcript that fits. */
  lemma SelectingDone(segments: seq<string>, selected: seq<string>, i: nat, remaining: int, budget: nat)
    requires Selecting(segments, selected, i, remaining, budget) && (i == 0 || remaining <= 0)
    requires budget > 0
    requires forall k | 0 <= k < |segments| :: segments[k] != ""
    ensures Fits(Join(selected), Join(segments), budget)
    ensures segments != [] ==> Join(selected) != ""
  {
    if segments == [] {
    } else if CutTo(segments, selected, remaining, budget) {
    } else {
      JoinTail(segments, i);
      if i == 0 {
        assert segments[0..] == segments;
      }
    }
  }

  /**
    The prompt, or None when the context alone fills it. The loop takes segments from the newest, cuts the
    first one that does not fit, and stops.
    */
  method BoundedPrompt(lines: seq<Line>, grounding: Option<string>) returns (prompt: Option<string>)
    ensures prompt.None? <==> |Prefix(grounding)| >= 30_000
    ensures prompt.Some? ==> |prompt.value| <= 30_000
    ensures prompt.Some? && Segments(lines) != [] && grounding.Some? ==>
      "Immutable dashboard snapshot context (JSON):\n" + grounding.value + "\n\nConversation:\n" <= prompt.value
    ensures prompt.Some? && Segments(lines) == [] && grounding.Some? ==>
      prompt.value == StripRight("Immutable dashboard snapshot context (JSON):\n" + grounding.value + "\n\nConversation:\n")
    ensures prompt.Some? && grounding == None ==> |Join(Segments(lines))| <= 30_000 ==> prompt.value == Join(Segments(lines))
    ensures prompt.Some? && Segments(lines) == [] ==> prompt.value == StripRight(Prefix(grounding))
    ensures prompt.Some? && Segments(lines) != [] ==>
      exists conversation ::
        && prompt.value == Prefix(grounding) + conversation
        && conversation != ""
        && Fits(conversation, Join(Segments(lines)), 30_000 - |Prefix(grounding)|)
  {
    hide Selecting, Fits, Join, Segments, Prefix;
    var segments := Segments(lines);
    var prefix := Prefix(grounding);
    PrefixHolds(grounding);
    var remaining: int := PROMPT_MAX - |prefix|;
    if remaining <= 0 {
      return None;
    }
    var selected: seq<string> := [];
    ghost var budget: nat := remaining;
    var i: nat := |segments|;
    SegmentsNonEmpty(lines);
    SelectingStart(segments, budget);
    while i > 0 && remaining > 0
      invariant 0 <= i <= |segments|
      invariant Selecting(segments, selected, i, remaining, budget)
    {
      SelectingStep(segments, selected, i, remaining, budget);
      var segment := segments[i - 1];
      if |segment| > remaining {
        segment := segment[|segment| - remaining..];
      }
      selected := [segment] + selected;
      remaining := remaining - (|segment| + 2);
      i := i - 1;
    }
    SelectingDone(segments, selected, i, remaining, budget);
    var conversation := Join(selected);
    FitsBounds(conversation, Join(segments), budget);
    if conversation != "" {
      prompt := Some(prefix + conversation);
      NothingToJoin(segments);
    } else {
      prompt := Some(StripRight(prefix));
      StripRightShortens(prefix);
    }
  }

  lemma SelectingStart(segments: seq<string>, budget: nat)
    ensures Selecting(segments, [], |segments|, budget, budget)
  {
  }

  lemma PrefixHolds(grounding: Option<string>)
    ensures Prefix(grounding)
         == if grounding.Some? then "Immutable dashboard snapshot context (JSON):\n" + grounding.value + "\n\nConversation:\n" else ""
    ensures StripRight("") == ""
  {
  }

  lemma FitsBounds(conversation: string, transcript: string, budget: nat)
    requires Fits(conversation, transcript, budget)
    ensures |conversation| <= budget && (transcript == "" ==> conversation == "")
    ensures |transcript| <= budget ==> conversation == transcript
  {
  }

  lemma NothingToJoin(segments: seq<string>)
    ensures segments == [] ==> Join(segments) == ""
  {
  }

  lemma {:induction false} StripRightShortens(s: string)
    ensures |StripRight(s)| <= |s|
  {
    if s != "" && IsSpace(s[|s| - 1]) {
      StripRightShortens(s[..|s| - 1]);
    }
  }

  lemma {:induction false} SegmentsNonEmpty(lines: seq<Line>)
    ensures forall i | 0 <= i < |Segments(lines)| :: Segments(lines)[i] != ""
  {
    if lines != [] {
      SegmentsNonEmpty(lines[1..]);
    }
  }
}
