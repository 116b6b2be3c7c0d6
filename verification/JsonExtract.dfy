/** Finding the JSON in an agent's free-text reply (`ExtractJSON`). JSON validity is a parameter. */
module JsonExtract {
  import opened FlowTypes
  import opened Templates

  const FENCE := "```"
  const FENCE_LINE := "\n```"

  /** The position of the first line break, or the length of the text. */
  function FirstBreak(s: string): (b: nat)
    ensures b <= |s| && (b < |s| ==> s[b] == '\n')
    ensures '\n' !in s[..b] && (b == |s| <==> '\n' !in s)
  {
    if s == "" || s[0] == '\n' then 0 else 1 + FirstBreak(s[1..])
  }

  /** The text cut at its line breaks. */
  function Lines(s: string): (lines: seq<string>)
    ensures |lines| > 0 && lines[0] == s[..FirstBreak(s)]
    decreases |s|
  {
    var b := FirstBreak(s);
    if b == |s| then [s] else [s[..b]] + Lines(s[b + 1..])
  }

  predicate OccursAt(s: string, pattern: string, p: int) {
    0 <= p <= |s| - |pattern| && s[p..p + |pattern|] == pattern
  }

  /** The first position at or after `from` where `pattern` occurs, or -1. */
  function Index(s: string, pattern: string, from: nat := 0): (r: int)
    requires from <= |s|
    ensures r == -1 ==> forall p :: from <= p ==> !OccursAt(s, pattern, p)
    ensures r != -1 ==> from <= r && OccursAt(s, pattern, r)
    ensures r != -1 ==> forall p :: from <= p < r ==> !OccursAt(s, pattern, p)
    decreases |s| - from
  {
    if OccursAt(s, pattern, from) then from
    else if from == |s| then -1
    else Index(s, pattern, from + 1)
  }

  predicate OpensJson(line: string) {
    "{" <= line || "[" <= line
  }

  /** The first line, trimmed, that opens an object or an array. */
  function FirstJsonLine(lines: seq<string>): (r: Option<string>) {
    if lines == [] then None
    else
      var line := TrimSpace(lines[0]);
      if !(FENCE <= line) && OpensJson(line) then Some(line) else FirstJsonLine(lines[1..])
  }

  /** The text from the first occurrence of `line` up to the next closing fence, when it is JSON. */
  function Candidate(valid: string -> bool, t: string, line: string): (r: string) {
    var start := Index(t, line);
    if start < 0 then ""
    else
      var end := Index(t[start..], FENCE_LINE);
      var c := TrimSpace(if end < 0 then t[start..] else t[start..][..end]);
      if valid(c) then c else ""
  }

  function ExtractJson(valid: string -> bool, s: string): (r: string) {
    var t := TrimSpace(s);
    if t == "" then ""
    else if valid(t) then t
    else
      match FirstJsonLine(Lines(t))
      case None => ""
      case Some(line) => Candidate(valid, t, line)
  }

  /** The scan as it runs: line by line, stopping at the first line that opens JSON. */
  method Extract(valid: string -> bool, s: string) returns (r: string)
    ensures r == ExtractJson(valid, s)
  {
    hide TrimSpace, Lines, IsSpace;
    var t := TrimSpace(s);
    if t == "" {
      return "";
    }
    if valid(t) {
      return t;
    }
    var lines := Lines(t);
    var k := 0;
    while k < |lines|
      invariant 0 <= k <= |lines|
      invariant FirstJsonLine(lines[k..]) == FirstJsonLine(lines)
    {
      var line := TrimSpace(lines[k]);
      k := k + 1;
      if FENCE <= line {
        continue;
      }
      if OpensJson(line) {
        var start := Index(t, line);
        if start < 0 {
          return "";
        }
        var end := Index(t[start..], FENCE_LINE);
        var candidate := TrimSpace(if end < 0 then t[start..] else t[start..][..end]);
        if valid(candidate) {
          return candidate;
        }
        return "";
      }
    }
    return "";
  }

  lemma TrimIsPiece(s: string) returns (a: nat, b: nat)
    ensures a <= b <= |s| && TrimSpace(s) == s[a..b]
  {
    hide TrimSpace;
    a, b := TrimCutsBothEnds(s);
  }

  lemma TrimTwice(s: string)
    ensures TrimSpace(TrimSpace(s)) == TrimSpace(s)
  {
  }

  lemma PieceOfPiece(s: string, a: nat, b: nat, c: nat, d: nat)
    requires a <= b <= |s| && c <= d <= b - a
    ensures s[a..b][c..d] == s[a + c..a + d]
  {
    assert forall k :: 0 <= k < d - c ==> s[a..b][c..d][k] == s[a + c + k];
  }

  lemma CandidateIsPiece(valid: string -> bool, t: string, line: string) returns (a: nat, b: nat)
    requires Candidate(valid, t, line) != ""
    ensures valid(Candidate(valid, t, line))
    ensures TrimSpace(Candidate(valid, t, line)) == Candidate(valid, t, line)
    ensures a <= b <= |t| && Candidate(valid, t, line) == t[a..b]
  {
    hide TrimSpace, IsSpace, Index;
    var start := Index(t, line);
    var end := Index(t[start..], FENCE_LINE);
    var stop := if end < 0 then |t| else start + end;
    var raw := if end < 0 then t[start..] else t[start..][..end];
    assert raw == t[start..stop];
    var c, d := TrimIsPiece(raw);
    TrimTwice(raw);
    a, b := start + c, start + d;
    PieceOfPiece(t, start, stop, c, d);
  }

  /** A result is a trimmed, contiguous piece of the reply that is valid JSON; in particular the
      second validity test in `ParseOutputJSON` never fails. */
  lemma ExtractedIsValidPiece(valid: string -> bool, s: string) returns (a: nat, b: nat)
    requires ExtractJson(valid, s) != ""
    ensures valid(ExtractJson(valid, s))
    ensures TrimSpace(ExtractJson(valid, s)) == ExtractJson(valid, s)
    ensures a <= b <= |s| && ExtractJson(valid, s) == s[a..b]
  {
    hide TrimSpace, Lines, Candidate, FirstJsonLine, FirstBreak, IsSpace, OccursAt;
    var t := TrimSpace(s);
    a, b := TrimIsPiece(s);
    if valid(t) {
      TrimTwice(s);
    } else {
      var c, d := CandidateIsPiece(valid, t, FirstJsonLine(Lines(t)).value);
      PieceOfPiece(s, a, b, c, d);
      a, b := a + c, a + d;
    }
  }

  lemma ExtractTwice(valid: string -> bool, s: string)
    ensures ExtractJson(valid, ExtractJson(valid, s)) == ExtractJson(valid, s)
  {
    if ExtractJson(valid, s) != "" {
      var _, _ := ExtractedIsValidPiece(valid, s);
    }
  }

  // --- Recovery of a fenced block -----------------------------------------------------------

  lemma FirstBreakOfConcat(s: string, rest: string)
    ensures '\n' in s ==> FirstBreak(s + rest) == FirstBreak(s) < |s|
    ensures '\n' !in s && (rest == "" || rest[0] == '\n') ==> FirstBreak(s + rest) == |s|
  {
    if s == "" {
      assert s + rest == rest;
    } else {
      assert (s + rest)[1..] == s[1..] + rest;
      FirstBreakOfConcat(s[1..], rest);
    }
  }

  lemma {:induction false} LinesUnfold(s: string)
    ensures '\n' !in s ==> Lines(s) == [s]
    ensures '\n' in s ==> FirstBreak(s) < |s| && Lines(s) == [s[..FirstBreak(s)]] + Lines(s[FirstBreak(s) + 1..])
  {
    hide FirstBreak;
  }

  lemma LinesWithoutBreak(head: string, rest: string)
    requires '\n' !in head
    ensures Lines(head + ['\n'] + rest) == [head] + Lines(rest)
  {
    var whole := head + ['\n'] + rest;
    hide FirstBreak, Lines;
    FirstBreakOfConcat(head, ['\n'] + rest);
    assert whole == head + (['\n'] + rest);
    LinesUnfold(whole);
    assert whole[|head|] == '\n';
    assert whole[|head| + 1..] == rest;
    assert whole[..|head|] == head;
  }

  /** Cutting at a line break between two texts cuts each of them. */
  lemma {:induction false} LinesOfConcat(head: string, rest: string)
    ensures Lines(head + ['\n'] + rest) == Lines(head) + Lines(rest)
    decreases |head|
  {
    hide FirstBreak, Lines;
    LinesUnfold(head);
    if '\n' in head {
      var b := FirstBreak(head);
      var whole := head + ['\n'] + rest;
      FirstBreakOfConcat(head, ['\n'] + rest);
      assert whole == head + (['\n'] + rest);
      assert whole[b] == '\n';
      assert whole[b + 1..] == head[b + 1..] + ['\n'] + rest;
      assert whole[..b] == head[..b];
      LinesOfConcat(head[b + 1..], rest);
      LinesUnfold(whole);
    } else {
      LinesWithoutBreak(head, rest);
    }
  }

  lemma FirstJsonLineSkips(a: seq<string>, b: seq<string>)
    requires forall l :: l in a ==> !OpensJson(TrimSpace(l))
    ensures FirstJsonLine(a + b) == FirstJsonLine(b)
  {
    if a == [] {
      assert a + b == b;
    } else {
      assert (a + b)[1..] == a[1..] + b;
      FirstJsonLineSkips(a[1..], b);
    }
  }

  /** A line break followed by a fence cannot occur inside JSON: strings may not contain a raw line
      break and no token starts with a back-quote (sections 2 and 7 of RFC 8259). */
  ghost predicate JsonHasNoFence(valid: string -> bool) {
    forall j: string, p :: valid(j) ==> !OccursAt(j, "\n```", p)
  }

  /** The line of a text that a scan sees first, trimmed. */
  function OpeningLine(s: string): (line: string) {
    TrimSpace(s[..FirstBreak(s)])
  }

  lemma TrimOpening(s: string)
    requires s != "" && !IsSpace(s[0])
    ensures OpeningLine(s) != "" && |OpeningLine(s)| <= |s|
    ensures s[..|OpeningLine(s)|] == OpeningLine(s)
    ensures OpeningLine(s)[0] == s[0]
  {
    assert FirstBreak(s) > 0;
    var line := s[..FirstBreak(s)];
    assert TrimLeft(line) == line;
  }

  /** The closing fence is found right after the body. */
  lemma FenceAfterBody(body: string, tail: string)
    requires forall p :: !OccursAt(body, FENCE_LINE, p)
    requires FENCE_LINE <= tail
    ensures Index(body + tail, FENCE_LINE) == |body|
  {
    var whole := body + tail;
    assert whole[|body|..|body| + 4] == tail[..4] == FENCE_LINE;
    assert OccursAt(whole, FENCE_LINE, |body|);
    forall p | 0 <= p < |body|
      ensures !OccursAt(whole, FENCE_LINE, p)
    {
      if p <= |body| - 4 {
        assert whole[p..p + 4] == body[p..p + 4];
        assert !OccursAt(body, FENCE_LINE, p);
      } else {
        // a match would put a back-quote where the line break of the fence is
        assert whole[p..p + 4][|body| - p] == tail[0] == '\n';
        assert FENCE_LINE[|body| - p] == '`';
      }
    }
  }

  lemma {:induction false} ScanStopsAtOnce(lines: seq<string>)
    requires lines != [] && OpensJson(TrimSpace(lines[0]))
    ensures FirstJsonLine(lines) == Some(TrimSpace(lines[0]))
  {
    hide TrimSpace;
    var line := TrimSpace(lines[0]);
    assert line[0] == '{' || line[0] == '[';
    assert FENCE[0] == '`';
  }

  lemma ScanStartsAt(rest: string)
    requires OpensJson(OpeningLine(rest))
    ensures FirstJsonLine(Lines(rest)) == Some(OpeningLine(rest))
  {
    hide TrimSpace, Lines, FirstBreak, OpensJson, FirstJsonLine;
    ScanStopsAtOnce(Lines(rest));
  }

  /** The scan reaches the body's opening line when no earlier line opens JSON. */
  lemma ScanReachesBody(pre: string, rest: string)
    requires OpensJson(OpeningLine(rest))
    requires pre == "" || pre[|pre| - 1] == '\n'
    requires pre != "" ==> forall l :: l in Lines(pre[..|pre| - 1]) ==> !OpensJson(TrimSpace(l))
    ensures FirstJsonLine(Lines(pre + rest)) == Some(OpeningLine(rest))
  {
    hide *;
    ScanStartsAt(rest);
    if pre == "" {
      assert pre + rest == rest;
    } else {
      var head := pre[..|pre| - 1];
      assert pre + rest == head + ['\n'] + rest;
      LinesOfConcat(head, rest);
      FirstJsonLineSkips(Lines(head), Lines(rest));
    }
  }

  lemma BodyIsFirst(pre: string, body: string, tail: string)
    requires body != "" && !IsSpace(body[0])
    requires forall p :: 0 <= p < |pre| ==> !OccursAt(pre + body + tail, OpeningLine(body), p)
    ensures Index(pre + body + tail, OpeningLine(body)) == |pre|
  {
    var t := pre + body + tail;
    var line := OpeningLine(body);
    TrimOpening(body);
    assert t[|pre|..|pre| + |line|] == body[..|line|] == line;
    assert OccursAt(t, line, |pre|);
  }

  lemma BodyToFence(body: string, tail: string)
    requires forall p :: !OccursAt(body, FENCE_LINE, p)
    requires tail == "" || FENCE_LINE <= tail
    ensures var end := Index(body + tail, FENCE_LINE);
            (if end < 0 then body + tail else (body + tail)[..end]) == body
  {
    if tail == "" {
      assert body + tail == body;
    } else {
      FenceAfterBody(body, tail);
    }
  }

  lemma CandidateIsBody(valid: string -> bool, pre: string, body: string, tail: string)
    requires valid(body) && TrimSpace(body) == body && OpensJson(body)
    requires forall p :: !OccursAt(body, FENCE_LINE, p)
    requires tail == "" || FENCE_LINE <= tail
    requires forall p :: 0 <= p < |pre| ==> !OccursAt(pre + body + tail, OpeningLine(body), p)
    ensures Candidate(valid, pre + body + tail, OpeningLine(body)) == body
  {
    hide TrimSpace;
    BodyIsFirst(pre, body, tail);
    BodyToFence(body, tail);
    assert (pre + body + tail)[|pre|..] == body + tail;
  }

  /** The text begins with an opening brace or bracket. */
  predicate BeginsJson(s: string) {
    s != "" && (s[0] == '{' || s[0] == '[')
  }

  lemma OpeningIsBrace(s: string)
    ensures OpensJson(s) <==> BeginsJson(s)
  {
  }

  /** A JSON body that starts on its own line and runs to a closing fence or to the end of the
      reply is returned exactly, provided the whole reply is not JSON itself, no earlier line opens
      JSON and the body's first line does not occur earlier. */
  lemma FencedBodyIsRecovered(valid: string -> bool, s: string, pre: string, body: string, tail: string)
    requires JsonHasNoFence(valid)
    requires TrimSpace(s) == pre + body + tail && !valid(TrimSpace(s))
    requires valid(body) && TrimSpace(body) == body && BeginsJson(body)
    requires pre == "" || pre[|pre| - 1] == '\n'
    requires pre != "" ==> forall l :: l in Lines(pre[..|pre| - 1]) ==> !BeginsJson(TrimSpace(l))
    requires tail == "" || "\n```" <= tail
    requires forall p :: 0 <= p < |pre| ==> !OccursAt(pre + body + tail, OpeningLine(body), p)
    ensures ExtractJson(valid, s) == body
  {
    hide TrimSpace;
    OpeningIsBrace(body);
    forall l: string ensures OpensJson(TrimSpace(l)) <==> BeginsJson(TrimSpace(l)) {
      OpeningIsBrace(TrimSpace(l));
    }
    TrimOpening(body);
    OpeningLineOfBody(body, tail);
    assert pre + body + tail == pre + (body + tail);
    ScanReachesBody(pre, body + tail);
    CandidateIsBody(valid, pre, body, tail);
  }

  lemma OpeningLineOfBody(body: string, tail: string)
    requires tail == "" || FENCE_LINE <= tail
    ensures OpeningLine(body + tail) == OpeningLine(body)
  {
    FirstBreakOfConcat(body, tail);
    if '\n' in body {
      assert (body + tail)[..FirstBreak(body)] == body[..FirstBreak(body)];
    } else {
      assert (body + tail)[..|body|] == body == body[..|body|];
    }
  }

  // --- What extraction does in general --------------------------------------------------------

  /** The lines of a text, joined by line breaks. */
  function Joined(lines: seq<string>): (s: string)
    requires lines != []
  {
    if |lines| == 1 then lines[0] else lines[0] + "\n" + Joined(lines[1..])
  }

  /** Cutting into lines loses nothing, and leaves no line break in a line. */
  lemma {:induction false} LinesAreAll(s: string)
    ensures Joined(Lines(s)) == s && forall l :: l in Lines(s) ==> '\n' !in l
    decreases |s|
  {
    hide FirstBreak, Lines;
    LinesUnfold(s);
    if '\n' in s {
      var b := FirstBreak(s);
      LinesAreAll(s[b + 1..]);
      assert Lines(s)[1..] == Lines(s[b + 1..]);
      assert s == s[..b] + "\n" + s[b + 1..];
    }
  }

  lemma {:induction false} FirstJsonLineAt(lines: seq<string>, k: nat)
    requires k < |lines| && BeginsJson(TrimSpace(lines[k]))
    requires forall j :: 0 <= j < k ==> !BeginsJson(TrimSpace(lines[j]))
    ensures FirstJsonLine(lines) == Some(TrimSpace(lines[k]))
  {
    hide TrimSpace, FirstJsonLine;
    assert lines == lines[..k] + lines[k..];
    forall l | l in lines[..k] ensures !OpensJson(TrimSpace(l)) {
      OpeningIsBrace(TrimSpace(l));
    }
    OpeningIsBrace(TrimSpace(lines[k]));
    FirstJsonLineSkips(lines[..k], lines[k..]);
    ScanStopsAtOnce(lines[k..]);
  }

  lemma {:induction false} NoJsonLine(lines: seq<string>)
    requires forall l :: l in lines ==> !BeginsJson(TrimSpace(l))
    ensures FirstJsonLine(lines) == None
  {
    hide TrimSpace;
    if lines != [] {
      OpeningIsBrace(TrimSpace(lines[0]));
      NoJsonLine(lines[1..]);
    }
  }

  /** A reply that is JSON as a whole is kept as it is, trimmed; a blank one gives nothing. */
  lemma WholeJsonIsKept(valid: string -> bool, s: string)
    ensures TrimSpace(s) == "" ==> ExtractJson(valid, s) == ""
    ensures TrimSpace(s) != "" && valid(TrimSpace(s)) ==> ExtractJson(valid, s) == TrimSpace(s)
  {
    hide TrimSpace;
  }

  /** The first place at or after `from` where the pattern occurs, or the length of the text. */
  ghost predicate FirstPlace(s: string, pattern: string, from: nat, p: nat) {
    && from <= p <= |s|
    && (forall q :: from <= q < p ==> !OccursAt(s, pattern, q))
    && (p < |s| ==> OccursAt(s, pattern, p))
    && (p == |s| ==> !OccursAt(s, pattern, p))
  }

  /** Extraction from a reply that is not JSON as a whole: nothing without a line that begins with a brace
      or a bracket; otherwise the text from where the first such line first occurs up to the next fence, if
      it is JSON, and nothing else. */
  lemma ExtractionIsFirstBlock(valid: string -> bool, s: string, k: nat, start: nat, end: nat)
    requires var t := TrimSpace(s); t != "" && !valid(t) && k <= |Lines(t)|
    requires forall j :: 0 <= j < k ==> !BeginsJson(TrimSpace(Lines(TrimSpace(s))[j]))
    requires var t := TrimSpace(s);
             k < |Lines(t)| ==>
               && BeginsJson(TrimSpace(Lines(t)[k]))
               && FirstPlace(t, TrimSpace(Lines(t)[k]), 0, start) && start < |t|
               && FirstPlace(t, "\n```", start, end)
    ensures var t := TrimSpace(s);
            if k == |Lines(t)| then ExtractJson(valid, s) == ""
            else ExtractJson(valid, s) == if valid(TrimSpace(t[start..end])) then TrimSpace(t[start..end]) else ""
  {
    hide TrimSpace, Lines, FirstJsonLine, Candidate;
    var t := TrimSpace(s);
    if k == |Lines(t)| {
      forall l | l in Lines(t) ensures !BeginsJson(TrimSpace(l)) {
        var j :| 0 <= j < |Lines(t)| && Lines(t)[j] == l;
      }
      NoJsonLine(Lines(t));
    } else {
      FirstJsonLineAt(Lines(t), k);
      CandidateIsCut(valid, t, TrimSpace(Lines(t)[k]), start, end);
    }
  }

  lemma CandidateIsCut(valid: string -> bool, t: string, line: string, start: nat, end: nat)
    requires FirstPlace(t, line, 0, start) && start < |t| && FirstPlace(t, "\n```", start, end)
    ensures Candidate(valid, t, line) ==
            if valid(TrimSpace(t[start..end])) then TrimSpace(t[start..end]) else ""
  {
    hide TrimSpace, Index;
    assert OccursAt(t, line, start);
    assert Index(t, line) == start;
    var rest := t[start..];
    forall p: nat ensures OccursAt(rest, "\n```", p) <==> OccursAt(t, "\n```", start + p) {
      if p + 4 <= |rest| {
        assert rest[p..p + 4] == t[start + p..start + p + 4];
      }
    }
    var i := Index(rest, FENCE_LINE);
    if end < |t| {
      assert OccursAt(rest, "\n```", end - start);
      assert i == end - start;
      assert rest[..i] == t[start..end];
    } else {
      assert i < 0;
      assert rest == t[start..end];
    }
  }
}
