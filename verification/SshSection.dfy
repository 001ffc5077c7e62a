// The managed section of the user's ssh config: finding it, and replacing it without touching the user's own text.

/** Occurrences of a token in a text, found and counted as the bytes package does. */
module Occurrences {
  predicate OccursAt(s: string, tok: string, i: int) {
    0 <= i && i + |tok| <= |s| && s[i..i + |tok|] == tok
  }

  /** The first occurrence at or after i, or -1. */
  function IndexFrom(s: string, tok: string, i: nat): (k: int)
    ensures k == -1 || (k >= i && OccursAt(s, tok, k))
    ensures forall j :: i <= j && OccursAt(s, tok, j) ==> 0 <= k <= j
    decreases |s| - i
  {
    if i + |tok| > |s| then -1
    else if s[i..i + |tok|] == tok then i
    else IndexFrom(s, tok, i + 1)
  }

  /** bytes.Index */
  function Index(s: string, tok: string): int { IndexFrom(s, tok, 0) }

  function CountFrom(s: string, tok: string, i: nat): nat
    requires tok != ""
    decreases |s| - i
  {
    var k := IndexFrom(s, tok, i);
    if k < 0 then 0 else 1 + CountFrom(s, tok, k + |tok|)
  }

  /** bytes.Count: occurrences that do not overlap */
  function Count(s: string, tok: string): nat
    requires tok != ""
  {
    CountFrom(s, tok, 0)
  }

  /** A marker that starts with its only '#' and stays on one line: no two of them overlap. */
  predicate Marker(tok: string) {
    tok != "" && tok[0] == '#' && '#' !in tok[1..] && '\n' !in tok
  }

  lemma MarkerChars(s: string, tok: string, i: int)
    requires Marker(tok) && OccursAt(s, tok, i)
    ensures s[i] == '#'
    ensures forall k :: i < k < i + |tok| ==> s[k] != '#'
    ensures forall k :: i <= k < i + |tok| ==> s[k] != '\n'
  {
  }

  lemma MarkersDoNotOverlap(s: string, t: string, u: string, i: int, j: int)
    requires Marker(t) && Marker(u) && OccursAt(s, t, i) && OccursAt(s, u, j) && i < j
    ensures i + |t| <= j
  {
    MarkerChars(s, t, i);
    MarkerChars(s, u, j);
  }

  ghost predicate AtMostOne(s: string, tok: string) {
    forall i, j :: OccursAt(s, tok, i) && OccursAt(s, tok, j) ==> i == j
  }

  lemma CountIsSmall(s: string, tok: string)
    requires tok != ""
    ensures Count(s, tok) <= 1 <==> Index(s, tok) < 0 || IndexFrom(s, tok, Index(s, tok) + |tok|) < 0
  {
    var k := Index(s, tok);
    assert k >= 0 ==> Count(s, tok) == 1 + CountFrom(s, tok, k + |tok|);
  }

  /** At most one is counted exactly when there is at most one. */
  lemma AtMostOneIff(s: string, tok: string)
    requires Marker(tok)
    ensures Count(s, tok) <= 1 <==> AtMostOne(s, tok)
  {
    CountIsSmall(s, tok);
    var k := Index(s, tok);
    if k >= 0 {
      var l := IndexFrom(s, tok, k + |tok|);
      forall j | OccursAt(s, tok, j) && j != k ensures l >= 0 {
        MarkersDoNotOverlap(s, tok, tok, k, j);
      }
    }
  }

  predicate EndsLine(s: string) { s == "" || s[|s| - 1] == '\n' }

  predicate StartsLine(s: string) { s != "" && s[0] == '\n' }

  /** Around a line break an occurrence lies on one side. */
  lemma OneSide(u: string, v: string, tok: string, i: int)
    requires Marker(tok) && OccursAt(u + v, tok, i) && (EndsLine(u) || StartsLine(v))
    ensures if i < |u| then OccursAt(u, tok, i) else OccursAt(v, tok, i - |u|)
  {
    var s := u + v;
    MarkerChars(s, tok, i);
    if i < |u| {
      assert s[|u| - 1] == '\n' || s[|u|] == '\n';
      assert i + |tok| <= |u|;
      assert s[i..i + |tok|] == u[i..i + |tok|];
    } else {
      assert s[i..i + |tok|] == v[i - |u|..i - |u| + |tok|];
    }
  }
}

/** Splitting and rewriting, for any pair of markers. */
module Sections {
  import opened Wrappers
  import opened Occurrences

  datatype SplitError = MultipleSections | MissingStart | MissingEnd | EndBeforeStart

  datatype Parts = Parts(before: string, section: string, after: string)

  /** The markers are told apart by their beginnings. */
  predicate Pair(start: string, end: string) {
    Marker(start) && Marker(end) && !(start <= end) && !(end <= start)
  }

  /** sshConfigSplitOnCoderSection: the section takes the byte before its start marker and the byte after its end
      marker. */
  function Split(data: string, start: string, end: string): Result<Parts, SplitError>
    requires start != "" && end != ""
  {
    if Count(data, start) > 1 || Count(data, end) > 1 then Err(MultipleSections) else
    var s, e := Index(data, start), Index(data, end);
    if s == -1 && e != -1 then Err(MissingStart)
    else if s != -1 && e == -1 then Err(MissingEnd)
    else if s == -1 then Ok(Parts(data, "", ""))
    else if s > e then Err(EndBeforeStart)
    else Ok(Cut(data, s, e + |end|))
  }

  /** e is where the end marker ends. */
  function Cut(data: string, s: nat, e: nat): Parts
    requires s <= e <= |data|
  {
    var i := if s > 0 then s - 1 else s;
    var j := if e < |data| then e + 1 else e;
    Parts(data[..i], data[i..j], data[j..])
  }

  /** The new file: the parts around a new section with the given body. */
  function Rewritten(before: string, body: string, after: string, start: string, end: string): string {
    before + (if before == "" then "" else "\n") + start + "\n" + body + end + "\n" + after
  }

  ghost predicate Absent(s: string, tok: string) { forall i :: !OccursAt(s, tok, i) }

  ghost predicate NoMarkers(s: string, start: string, end: string) { Absent(s, start) && Absent(s, end) }

  /** Splitting loses nothing. */
  lemma SplitConcat(data: string, start: string, end: string)
    requires start != "" && end != ""
    ensures var r := Split(data, start, end); r.Ok? ==> r.value.before + r.value.section + r.value.after == data
  {
  }

  /** Which error, or which parts, a file gives: a second marker of either kind counts first, then a missing one,
      then their order. */
  lemma SplitOutcome(data: string, start: string, end: string)
    requires Pair(start, end)
    ensures !AtMostOne(data, start) || !AtMostOne(data, end) <==> Split(data, start, end) == Err(MultipleSections)
    ensures AtMostOne(data, start) && AtMostOne(data, end) ==>
              && (Absent(data, start) && Absent(data, end) ==> Split(data, start, end) == Ok(Parts(data, "", "")))
              && (Absent(data, start) && !Absent(data, end) ==> Split(data, start, end) == Err(MissingStart))
              && (!Absent(data, start) && Absent(data, end) ==> Split(data, start, end) == Err(MissingEnd))
              && (forall s, e :: OccursAt(data, start, s) && OccursAt(data, end, e) ==>
                    Split(data, start, end) ==
                    if s > e then Err(EndBeforeStart) else Ok(Cut(data, s, e + |end|)))
  {
    AtMostOneIff(data, start);
    AtMostOneIff(data, end);
  }

  lemma InPrefix(data: string, i: int, tok: string, k: int)
    requires 0 <= i <= |data|
    ensures OccursAt(data[..i], tok, k) ==> OccursAt(data, tok, k) && k + |tok| <= i
  {
  }

  lemma InSuffix(data: string, i: int, tok: string, k: int)
    requires 0 <= i <= |data|
    ensures OccursAt(data[i..], tok, k) ==> OccursAt(data, tok, i + k) && k >= 0
  {
  }

  lemma NoneBefore(data: string, i: int, start: string, end: string)
    requires Pair(start, end) && 0 <= i <= |data|
    requires Index(data, start) < 0 || i <= Index(data, start) + 1
    requires Index(data, end) < 0 || i <= Index(data, end) + 1
    ensures NoMarkers(data[..i], start, end)
  {
    forall k ensures !OccursAt(data[..i], start, k) && !OccursAt(data[..i], end, k) {
      InPrefix(data, i, start, k);
      InPrefix(data, i, end, k);
    }
  }

  lemma NoneAfter(data: string, i: int, start: string, end: string)
    requires Pair(start, end) && AtMostOne(data, start) && AtMostOne(data, end)
    requires 0 <= Index(data, start) < i <= |data| && 0 <= Index(data, end) < i
    ensures NoMarkers(data[i..], start, end)
  {
    forall k ensures !OccursAt(data[i..], start, k) && !OccursAt(data[i..], end, k) {
      InSuffix(data, i, start, k);
      InSuffix(data, i, end, k);
    }
  }

  /** The parts around the section are free of markers. */
  lemma PartsHaveNoMarkers(data: string, start: string, end: string)
    requires Pair(start, end) && Split(data, start, end).Ok?
    ensures var p := Split(data, start, end).value; NoMarkers(p.before, start, end) && NoMarkers(p.after, start, end)
  {
    var p := Split(data, start, end).value;
    SplitConcat(data, start, end);
    assert p.before == data[..|p.before|];
    NoneBefore(data, |p.before|, start, end);
    if Index(data, start) >= 0 {
      AtMostOneIff(data, start);
      AtMostOneIff(data, end);
      assert p.after == data[|data| - |p.after|..];
      NoneAfter(data, |data| - |p.after|, start, end);
    }
  }

  // ----- Rewriting

  /** A marker on a line of its own, after text without tok: tok is that marker, or comes later. */
  lemma InMarked(u: string, m: string, v: string, tok: string, i: int)
    requires Marker(tok) && Marker(m) && EndsLine(u) && StartsLine(v) && Absent(u, tok)
    requires OccursAt(u + (m + v), tok, i)
    ensures (i == |u| && tok <= m) || OccursAt(v, tok, i - |u| - |m|)
  {
    OneSide(u, m + v, tok, i);
    OneSide(m, v, tok, i - |u|);
    if i - |u| < |m| {
      MarkerChars(m, tok, i - |u|);
      assert OccursAt(m, m, 0);
      MarkerChars(m, m, 0);
    }
  }

  lemma AfterNewline(s: string, tok: string)
    requires Marker(tok) && Absent(s, tok)
    ensures Absent("\n" + s, tok)
  {
    forall i ensures !OccursAt("\n" + s, tok, i) {
      if OccursAt("\n" + s, tok, i) {
        MarkerChars("\n" + s, tok, i);
        OneSide("\n", s, tok, i);
      }
    }
  }

  lemma BeforeNewline(s: string, tok: string)
    requires Marker(tok) && Absent(s, tok)
    ensures Absent(s + "\n", tok)
  {
    forall i ensures !OccursAt(s + "\n", tok, i) {
      if OccursAt(s + "\n", tok, i) {
        MarkerChars(s + "\n", tok, i);
        OneSide(s, "\n", tok, i);
      }
    }
  }

  /** The three stretches of a rewritten file around its two markers. */
  function Lead(before: string): string { before + if before == "" then "" else "\n" }

  lemma RewrittenShape(before: string, body: string, after: string, start: string, end: string)
    ensures Rewritten(before, body, after, start, end) ==
            Lead(before) + (start + (("\n" + body) + (end + ("\n" + after))))
  {
  }

  lemma OnlyMarkers(u: string, q: string, r: string, start: string, end: string)
    requires Pair(start, end) && EndsLine(u) && EndsLine(q) && StartsLine(q) && StartsLine(r)
    requires NoMarkers(u, start, end) && NoMarkers(q, start, end) && NoMarkers(r, start, end)
    ensures var y := u + (start + (q + (end + r)));
            && (forall i :: OccursAt(y, start, i) ==> i == |u|)
            && (forall i :: OccursAt(y, end, i) ==> i == |u| + |start| + |q|)
  {
    var v := q + (end + r);
    var y := u + (start + v);
    forall tok, i | (tok == start || tok == end) && OccursAt(y, tok, i)
      ensures i == if tok == start then |u| else |u| + |start| + |q|
    {
      InMarked(u, start, v, tok, i);
      if OccursAt(v, tok, i - |u| - |start|) {
        InMarked(q, end, r, tok, i - |u| - |start|);
      }
    }
  }

  lemma MarkersOccur(u: string, q: string, r: string, start: string, end: string)
    ensures var y := u + (start + (q + (end + r)));
            OccursAt(y, start, |u|) && OccursAt(y, end, |u| + |start| + |q|)
  {
  }

  lemma StretchesHaveNo(before: string, body: string, after: string, tok: string)
    requires Marker(tok) && Absent(before, tok) && Absent(body, tok) && Absent(after, tok)
    ensures Absent(Lead(before), tok) && Absent("\n" + body, tok) && Absent("\n" + after, tok)
  {
    BeforeNewline(before, tok);
    AfterNewline(body, tok);
    AfterNewline(after, tok);
    assert before == "" ==> Lead(before) == before;
  }

  /** A rewritten file holds each marker once, where the writer put it. */
  lemma MarkersFound(before: string, body: string, after: string, start: string, end: string)
    requires Pair(start, end) && EndsLine(body)
    requires NoMarkers(before, start, end) && NoMarkers(body, start, end) && NoMarkers(after, start, end)
    ensures var y := Rewritten(before, body, after, start, end);
            && Index(y, start) == |Lead(before)| && Index(y, end) == |y| - 1 - |after| - |end|
            && AtMostOne(y, start) && AtMostOne(y, end)
  {
    var u, q, r := Lead(before), "\n" + body, "\n" + after;
    RewrittenShape(before, body, after, start, end);
    StretchesHaveNo(before, body, after, start);
    StretchesHaveNo(before, body, after, end);
    OnlyMarkers(u, q, r, start, end);
    MarkersOccur(u, q, r, start, end);
  }

  /** Splitting a rewritten file gives back the parts around its section. */
  lemma SplitRewritten(before: string, body: string, after: string, start: string, end: string)
    requires Pair(start, end) && EndsLine(body)
    requires NoMarkers(before, start, end) && NoMarkers(body, start, end) && NoMarkers(after, start, end)
    ensures var y := Rewritten(before, body, after, start, end);
            Split(y, start, end) == Ok(Parts(before, y[|before|..|y| - |after|], after))
  {
    var y := Rewritten(before, body, after, start, end);
    MarkersFound(before, body, after, start, end);
    AtMostOneIff(y, start);
    AtMostOneIff(y, end);
    CutRewritten(before, body, after, start, end);
  }

  lemma CutRewritten(before: string, body: string, after: string, start: string, end: string)
    requires start != ""
    ensures var y := Rewritten(before, body, after, start, end);
            var s, e := |Lead(before)|, |y| - 1 - |after|;
            s <= e <= |y| && Cut(y, s, e) == Parts(before, y[|before|..|y| - |after|], after)
  {
  }

  /** Replace the section of a config file, or add one at its end. */
  function Rewrite(data: string, body: string, start: string, end: string): Result<string, SplitError>
    requires start != "" && end != ""
  {
    match Split(data, start, end)
    case Err(e) => Err(e)
    case Ok(p) => Ok(Rewritten(p.before, body, p.after, start, end))
  }

  /** Rewriting keeps the parts around the section, so doing it again with the same body changes nothing. */
  lemma RewriteIsFixedPoint(data: string, body: string, start: string, end: string)
    requires Pair(start, end) && EndsLine(body) && NoMarkers(body, start, end) && Split(data, start, end).Ok?
    ensures var p, y := Split(data, start, end).value, Rewrite(data, body, start, end).value;
            && Split(y, start, end) == Ok(Parts(p.before, y[|p.before|..|y| - |p.after|], p.after))
            && Rewrite(y, body, start, end) == Ok(y)
  {
    var p := Split(data, start, end).value;
    PartsHaveNoMarkers(data, start, end);
    SplitRewritten(p.before, body, p.after, start, end);
  }

  lemma OccursInMiddle(u: string, q: string, r: string, start: string, end: string, tok: string, i: int)
    requires OccursAt(q, tok, i)
    ensures OccursAt(u + (start + (q + (end + r))), tok, |u| + |start| + i)
  {
  }

  lemma SecondMarker(u: string, q: string, r: string, start: string, end: string, tok: string)
    requires (tok == start || tok == end) && tok != "" && q != "" && !Absent(q, tok)
    ensures !AtMostOne(u + (start + (q + (end + r))), tok)
  {
    var i :| OccursAt(q, tok, i);
    OccursInMiddle(u, q, r, start, end, tok, i);
    MarkersOccur(u, q, r, start, end);
  }

  lemma StillPresent(s: string, tok: string)
    requires !Absent(s, tok)
    ensures !Absent("\n" + s, tok)
  {
    var i :| OccursAt(s, tok, i);
    assert ("\n" + s)[i + 1..i + 1 + |tok|] == s[i..i + |tok|];
    assert OccursAt("\n" + s, tok, i + 1);
  }

  lemma MarkerInBody(before: string, body: string, after: string, start: string, end: string, tok: string)
    requires (tok == start || tok == end) && tok != "" && !Absent(body, tok)
    ensures !AtMostOne(Rewritten(before, body, after, start, end), tok)
  {
    StillPresent(body, tok);
    RewrittenShape(before, body, after, start, end);
    SecondMarker(Lead(before), "\n" + body, "\n" + after, start, end, tok);
  }

  /** A body that holds a marker gives the file a second one. */
  lemma MarkerInBodyIsRefused(before: string, body: string, after: string, start: string, end: string)
    requires Pair(start, end) && !NoMarkers(body, start, end)
    ensures Split(Rewritten(before, body, after, start, end), start, end) == Err(MultipleSections)
  {
    var y, tok := Rewritten(before, body, after, start, end), if Absent(body, start) then end else start;
    MarkerInBody(before, body, after, start, end, tok);
    AtMostOneIff(y, tok);
  }

  /** A second run with the same body changes nothing exactly when the body is free of markers; otherwise it is
      refused. */
  lemma RerunIff(data: string, body: string, start: string, end: string)
    requires Pair(start, end) && EndsLine(body) && Split(data, start, end).Ok?
    ensures var y := Rewrite(data, body, start, end).value;
            Rewrite(y, body, start, end) == if NoMarkers(body, start, end) then Ok(y) else Err(MultipleSections)
  {
    var p := Split(data, start, end).value;
    if NoMarkers(body, start, end) {
      RewriteIsFixedPoint(data, body, start, end);
    } else {
      MarkerInBodyIsRefused(p.before, body, p.after, start, end);
    }
  }

  /** The text outside the markers, before and after. */
  function Outside(data: string, start: string, end: string): (string, string)
    requires Index(data, start) >= 0 && Index(data, end) >= 0
  {
    (data[..Index(data, start)], data[Index(data, end) + |end|..])
  }

  lemma OutsideRewritten(before: string, body: string, after: string, start: string, end: string)
    requires Pair(start, end) && EndsLine(body)
    requires NoMarkers(before, start, end) && NoMarkers(body, start, end) && NoMarkers(after, start, end)
    ensures var y := Rewritten(before, body, after, start, end);
            && Index(y, start) >= 0 && Index(y, end) >= 0
            && Outside(y, start, end) == (Lead(before), "\n" + after)
  {
    var y := Rewritten(before, body, after, start, end);
    MarkersFound(before, body, after, start, end);
    assert y[..|Lead(before)|] == Lead(before);
    assert y[|y| - 1 - |after|..] == "\n" + after;
  }

  /** The bytes next to the markers that a rewrite would put there itself. */
  predicate OnOwnLines(data: string, s: nat, e: nat)
    requires s <= e <= |data|
  {
    (s == 0 || (s > 1 && data[s - 1] == '\n')) && e < |data| && data[e] == '\n'
  }

  lemma SplitIsCut(data: string, start: string, end: string)
    requires Pair(start, end) && Index(data, start) >= 0
    requires Split(data, start, end).Ok?
             || (AtMostOne(data, start) && AtMostOne(data, end) && Index(data, start) <= Index(data, end))
    ensures var s, e := Index(data, start), Index(data, end) + |end|;
            Index(data, end) >= 0 && s <= e <= |data| && Split(data, start, end) == Ok(Cut(data, s, e))
  {
    AtMostOneIff(data, start);
    AtMostOneIff(data, end);
  }

  lemma OutsideOfRewrite(data: string, body: string, start: string, end: string)
    requires Pair(start, end) && EndsLine(body) && NoMarkers(body, start, end)
    requires Split(data, start, end).Ok? && Index(data, start) >= 0
    ensures var p, y := Split(data, start, end).value, Rewrite(data, body, start, end).value;
            Index(y, start) >= 0 && Index(y, end) >= 0 && Outside(y, start, end) == (Lead(p.before), "\n" + p.after)
  {
    var p := Split(data, start, end).value;
    PartsHaveNoMarkers(data, start, end);
    OutsideRewritten(p.before, body, p.after, start, end);
  }

  /** Replacing a section leaves the text outside its markers as it was exactly when the markers stand on lines of
      their own, the first not after a single empty line at the start of the file. */
  lemma UserTextKeptIff(data: string, body: string, start: string, end: string)
    requires Pair(start, end) && EndsLine(body) && NoMarkers(body, start, end)
    requires Split(data, start, end).Ok? && Index(data, start) >= 0
    ensures var y := Rewrite(data, body, start, end).value;
            Index(y, start) >= 0 && Index(y, end) >= 0
    ensures var y := Rewrite(data, body, start, end).value;
            (Outside(y, start, end) == Outside(data, start, end) <==>
                OnOwnLines(data, Index(data, start), Index(data, end) + |end|))
  {
    SplitIsCut(data, start, end);
    OutsideOfRewrite(data, body, start, end);
    CutIsKeptIff(data, Index(data, start), Index(data, end) + |end|);
  }

  lemma OccursBehind(c: char, s: string, tok: string, i: int)
    requires Marker(tok) && c != '#'
    ensures OccursAt([c] + s, tok, i) <==> OccursAt(s, tok, i - 1)
  {
    var t := [c] + s;
    if OccursAt(t, tok, i) {
      MarkerChars(t, tok, i);
      assert t[i..i + |tok|] == s[i - 1..i - 1 + |tok|];
    }
    if OccursAt(s, tok, i - 1) {
      assert t[i..i + |tok|] == s[i - 1..i - 1 + |tok|];
    }
  }

  lemma IndexBehind(c: char, s: string, tok: string, k: int)
    requires Marker(tok) && c != '#' && AtMostOne(s, tok) && OccursAt(s, tok, k)
    ensures AtMostOne([c] + s, tok) && Index([c] + s, tok) == k + 1
  {
    forall i ensures OccursAt([c] + s, tok, i) <==> OccursAt(s, tok, i - 1) { OccursBehind(c, s, tok, i); }
    assert OccursAt(s, tok, k + 1 - 1);
    assert OccursAt([c] + s, tok, k + 1);
  }

  lemma CutAll(c: char, y: string)
    requires |y| > 0
    ensures Cut([c] + y, 1, |y|) == Parts("", [c] + y, "")
  {
  }

  lemma ByteBeforeIsTaken(y: string, start: string, end: string)
    requires Pair(start, end) && AtMostOne(y, start) && AtMostOne(y, end)
    requires OccursAt(y, start, 0) && OccursAt(y, end, |y| - 1 - |end|)
    ensures Index(['x'] + y, start) == 1
    ensures Split(['x'] + y, start, end) == Ok(Parts("", ['x'] + y, ""))
  {
    IndexBehind('x', y, start, 0);
    IndexBehind('x', y, end, |y| - 1 - |end|);
    SplitIsCut(['x'] + y, start, end);
    CutAll('x', y);
  }

  lemma EmptySection(start: string, end: string)
    requires Pair(start, end)
    ensures var y := Rewritten("", "", "", start, end);
            AtMostOne(y, start) && AtMostOne(y, end) && OccursAt(y, start, 0) && OccursAt(y, end, |y| - 1 - |end|)
  {
    MarkersFound("", "", "", start, end);
  }

  /** A byte before the start marker on its line is lost. */
  lemma UserTextLostExample(start: string, end: string)
    requires Pair(start, end)
    ensures var y := Rewritten("", "", "", start, end);
            && Split(['x'] + y, start, end).Ok? && Index(['x'] + y, start) == 1
            && Rewrite(['x'] + y, "", start, end) == Ok(y)
  {
    EmptySection(start, end);
    ByteBeforeIsTaken(Rewritten("", "", "", start, end), start, end);
  }

  lemma CutIsKeptIff(data: string, s: nat, e: nat)
    requires s <= e <= |data|
    ensures var p := Cut(data, s, e);
            (Lead(p.before), "\n" + p.after) == (data[..s], data[e..]) <==> OnOwnLines(data, s, e)
  {
    LeadIsKeptIff(data, s);
    TrailIsKeptIff(data, e);
  }

  lemma LeadIsKeptIff(data: string, s: nat)
    requires s <= |data|
    ensures Lead(data[..if s > 0 then s - 1 else s]) == data[..s] <==> s == 0 || (s > 1 && data[s - 1] == '\n')
  {
  }

  lemma TrailIsKeptIff(data: string, e: nat)
    requires e <= |data|
    ensures "\n" + data[if e < |data| then e + 1 else e..] == data[e..] <==> e < |data| && data[e] == '\n'
  {
  }
}
