// Random indexes without modulo bias: a 32-bit word is multiplied by n and the high half of the product is the index;
// words whose low half falls below a threshold are redrawn.

module UnbiasedModulo {
  import opened Wrappers
  import opened Ranges
  import opened Counting

  const WORDS := 0x1_0000_0000

  type Word = w: int | 0 <= w < 0x1_0000_0000

  /** int32 values that may be passed as n. */
  type Modulus = n: int | 0 < n < 0x8000_0000 witness 1

  function Prod(v: Word, n: Modulus): nat { v * n }

  /** uint32(prod) */
  function Low(v: Word, n: Modulus): Word { Prod(v, n) % WORDS }

  /** uint32(-n) % uint32(n) */
  function Threshold(n: Modulus): nat { (WORDS - n) % n }

  /** int32(prod >> 32) */
  function High(v: Word, n: Modulus): int { Prod(v, n) / WORDS }

  /** The word is used rather than redrawn. */
  predicate Accepted(v: Word, n: Modulus) { Low(v, n) >= Threshold(n) }

  /** The index got from word w or, when it is rejected, from the reader's first accepted word; and the words left. */
  function Draw(w: Word, n: Modulus, reader: seq<Word>): (r: Option<(int, seq<Word>)>)
    ensures r.Some? ==> 0 <= r.value.0 < n
    decreases |reader|
  {
    if Accepted(w, n) then
      HighInRange(w, n);
      Some((High(w, n), reader))
    else if reader == [] then None
    else Draw(reader[0], n, reader[1..])
  }

  /** When words run out, reading has failed. The outer test of the code is kept; it is implied by the inner one. */
  method UnbiasedModulo32(v: Word, n: Modulus, reader: seq<Word>) returns (r: Result<int, ()>, left: seq<Word>)
    ensures match Draw(v, n, reader) case Some((i, rest)) => r == Ok(i) && left == rest case None => r.Err?
    ensures r.Ok? ==> 0 <= r.value < n
  {
    left := reader;
    var w := v;
    var prod := Prod(w, n);
    var low := Low(w, n);
    if low < n {
      var thresh := Threshold(n);
      while low < thresh
        invariant prod == Prod(w, n) && low == Low(w, n)
        invariant Draw(v, n, reader) == Draw(w, n, left)
        decreases |left|
      {
        if left == [] {
          return Err(()), left;
        }
        w, left := left[0], left[1..];
        prod := Prod(w, n);
        low := Low(w, n);
      }
    }
    r := Ok(prod / WORDS);
  }

  lemma HighInRange(v: Word, n: Modulus)
    ensures 0 <= High(v, n) < n
  {
    assert v * n <= (WORDS - 1) * n;
  }

  // ----- Counting words

  lemma ThresholdIsRemainder(n: Modulus)
    ensures Threshold(n) == WORDS % n
  {
    ModSub(WORDS, n);
  }

  lemma ModSub(a: int, n: int)
    requires 0 < n <= a
    ensures (a - n) % n == a % n
  {
    var q, r := a / n, a % n;
    assert a - n == n * (q - 1) + r;
    UniqueDiv(a - n, n, q - 1, r);
  }

  lemma UniqueDiv(a: int, n: int, q: int, r: int)
    requires 0 <= r < n && a == n * q + r
    ensures a / n == q && a % n == r
  {
    MulOrder(n, q, a / n);
    MulOrder(n, a / n, q);
  }

  lemma MulOrder(n: int, a: int, b: int)
    requires n > 0
    ensures a <= b ==> a * n <= b * n
    ensures a < b ==> a * n + n <= b * n
  {
    if a < b {
      MulNonNegative(b - a - 1, n);
      assert b * n == a * n + n + (b - a - 1) * n;
    }
  }

  lemma {:induction false} MulNonNegative(a: nat, b: nat)
    ensures a * b >= 0
  {
  }

  /** The words that are accepted and give index r. */
  ghost function WordsFor(n: Modulus, r: int): set<Word> {
    set v: Word | 0 <= v < WORDS && Accepted(v, n) && High(v, n) == r
  }

  ghost function RejectedWords(n: Modulus): set<Word> {
    set v: Word | 0 <= v < WORDS && !Accepted(v, n)
  }

  /** Accepted words for index r are those whose product lies in an interval of length n * (WORDS / n). */
  lemma AcceptedProducts(v: Word, n: Modulus, r: int)
    ensures Accepted(v, n) && High(v, n) == r <==> r * WORDS + WORDS % n <= v * n < (r + 1) * WORDS
  {
    ThresholdIsRemainder(n);
    var q, low := High(v, n), Low(v, n);
    assert v * n == WORDS * q + low;
  }

  /** An interval of n * k integers holds exactly k multiples of n. */
  lemma MultiplesInInterval(n: int, a: int, k: int) returns (first: int)
    requires n > 0
    ensures forall v :: a <= v * n < a + n * k <==> first <= v < first + k
  {
    first := (a + n - 1) / n;
    var rem := (a + n - 1) % n;
    assert a + n - 1 == first * n + rem;
    assert a <= first * n < a + n;
    forall v
      ensures a <= v * n < a + n * k <==> first <= v < first + k
    {
      MulOrder(n, first, v);
      MulOrder(n, first + k, v);
      MulOrder(n, v, first);
      MulOrder(n, v, first + k);
      assert (first + k) * n == first * n + n * k;
    }
  }

  /** Every index is hit by exactly floor(2^32 / n) words. */
  lemma IndexIsUniform(n: Modulus, r: int)
    requires 0 <= r < n
    ensures |WordsFor(n, r)| == WORDS / n
  {
    var k, a := WORDS / n, r * WORDS + WORDS % n;
    assert a + n * k == (r + 1) * WORDS;
    var first := MultiplesInInterval(n, a, k);
    assert k > 0;
    forall v ensures v in WordsFor(n, r) <==> v in Range(first, first + k) {
      if 0 <= v < WORDS {
        AcceptedProducts(v, n, r);
      }
      if first <= v < first + k {
        InWordRange(v, n, r);
      }
    }
    assert WordsFor(n, r) == Range(first, first + k);
    RangeSize(first, first + k);
  }

  lemma InWordRange(v: int, n: Modulus, r: int)
    requires 0 <= r < n && r * WORDS <= v * n < (r + 1) * WORDS
    ensures 0 <= v < WORDS
  {
    MulOrder(n, v, 0);
    MulOrder(n, WORDS, v);
  }

  /** Accepted words with an index below k. */
  ghost function WordsBelow(n: Modulus, k: int): set<Word> {
    set v: Word | 0 <= v < WORDS && Accepted(v, n) && High(v, n) < k
  }

  lemma {:induction false} WordsBelowSize(n: Modulus, k: nat)
    requires k <= n
    ensures |WordsBelow(n, k)| == k * (WORDS / n)
  {
    if k == 0 {
      forall v: Word ensures High(v, n) >= 0 { HighInRange(v, n); }
      assert WordsBelow(n, 0) == {};
    } else {
      WordsBelowSize(n, k - 1);
      IndexIsUniform(n, k - 1);
      assert WordsBelow(n, k) == WordsBelow(n, k - 1) + WordsFor(n, k - 1);
      assert WordsBelow(n, k - 1) !! WordsFor(n, k - 1);
      assert k * (WORDS / n) == (k - 1) * (WORDS / n) + WORDS / n;
    }
  }

  lemma WordsPartition(n: Modulus)
    ensures Range(0, WORDS) == WordsBelow(n, n) + RejectedWords(n)
    ensures WordsBelow(n, n) !! RejectedWords(n)
  {
    forall v: Word ensures High(v, n) < n { HighInRange(v, n); }
  }

  /** Exactly 2^32 mod n words are redrawn. */
  lemma RejectedCount(n: Modulus)
    ensures |RejectedWords(n)| == WORDS % n
  {
    var below, rejected := WordsBelow(n, n), RejectedWords(n);
    assert |below| + |rejected| == WORDS by {
      WordsPartition(n);
      RangeSize(0, WORDS);
      DisjointSize<int>(below, rejected);
    }
    assert |below| == n * (WORDS / n) by {
      WordsBelowSize(n, n);
    }
  }

  // ----- Counting whole draws, redraws included

  /** The index got from a stream of words. */
  function Drawn(ws: seq<Word>, n: Modulus): Option<int> {
    if ws == [] || Draw(ws[0], n, ws[1..]).None? then None else Some(Draw(ws[0], n, ws[1..]).value.0)
  }

  ghost function Cross(vs: set<Word>, ts: set<seq<Word>>): set<seq<Word>> {
    set v, t | v in vs && t in ts :: [v] + t
  }

  lemma InCross(vs: set<Word>, ts: set<seq<Word>>)
    ensures forall s :: s in Cross(vs, ts) <==> s != [] && s[0] in vs && s[1..] in ts
  {
    forall s | s != [] && s[0] in vs && s[1..] in ts ensures s in Cross(vs, ts) {
      assert s == [s[0]] + s[1..];
    }
  }

  function Prefixed(t: (Word, seq<Word>)): seq<Word> { [t.0] + t.1 }

  lemma PrefixedIsInjective(t: (Word, seq<Word>), u: (Word, seq<Word>))
    requires Prefixed(t) == Prefixed(u)
    ensures t == u
  {
    assert Prefixed(t)[0] == t.0 && Prefixed(t)[1..] == t.1;
    assert Prefixed(u)[0] == u.0 && Prefixed(u)[1..] == u.1;
    assert t == (t.0, t.1) && u == (u.0, u.1);
  }

  lemma CrossSize(vs: set<Word>, ts: set<seq<Word>>)
    ensures |Cross(vs, ts)| == |vs| * |ts|
  {
    var from := Product(vs, ts);
    forall t, u | t in from && u in from && Prefixed(t) == Prefixed(u) ensures t == u { PrefixedIsInjective(t, u); }
    forall s | s in Cross(vs, ts) ensures exists t :: t in from && Prefixed(t) == s {
      InCross(vs, ts);
      assert Prefixed((s[0], s[1..])) == s;
    }
    SameSize(from, Cross(vs, ts), Prefixed);
    ProductSize(vs, ts);
  }

  ghost function AllWords(): set<Word> { Range(0, WORDS) }

  /** All streams of l words. */
  ghost function Streams(l: nat): set<seq<Word>> {
    if l == 0 then {[]} else Cross(AllWords(), Streams(l - 1))
  }

  /** The streams of l words from which index r is drawn. */
  ghost function StreamsFor(l: nat, n: Modulus, r: int): set<seq<Word>> {
    set ws | ws in Streams(l) && Drawn(ws, n) == Some(r)
  }

  function Pow(b: nat, e: nat): nat { if e == 0 then 1 else b * Pow(b, e - 1) }

  lemma {:induction false} StreamCount(l: nat)
    ensures |Streams(l)| == Pow(WORDS, l)
  {
    if l > 0 {
      StreamCount(l - 1);
      CrossSize(AllWords(), Streams(l - 1));
      RangeSize(0, WORDS);
    }
  }

  lemma StreamsForSplit(l: nat, n: Modulus, r: int)
    requires l > 0
    ensures StreamsFor(l, n, r) ==
            Cross(WordsFor(n, r), Streams(l - 1)) + Cross(RejectedWords(n), StreamsFor(l - 1, n, r))
    ensures Cross(WordsFor(n, r), Streams(l - 1)) !! Cross(RejectedWords(n), StreamsFor(l - 1, n, r))
  {
    InCross(AllWords(), Streams(l - 1));
    InCross(WordsFor(n, r), Streams(l - 1));
    InCross(RejectedWords(n), StreamsFor(l - 1, n, r));
  }

  lemma StreamsForCount(l: nat, n: Modulus, r: int)
    requires l > 0 && 0 <= r < n
    ensures |StreamsFor(l, n, r)| == (WORDS / n) * |Streams(l - 1)| + (WORDS % n) * |StreamsFor(l - 1, n, r)|
  {
    StreamsForSplit(l, n, r);
    CrossSize(WordsFor(n, r), Streams(l - 1));
    CrossSize(RejectedWords(n), StreamsFor(l - 1, n, r));
    IndexIsUniform(n, r);
    RejectedCount(n);
  }

  /** Among all streams of l words, every index below n is drawn from equally many:
      n times that number is everything but the streams that are redrawn to the end. */
  lemma {:induction false} DrawIsUniform(l: nat, n: Modulus, r: int)
    requires 0 <= r < n
    ensures n * |StreamsFor(l, n, r)| + Pow(WORDS % n, l) == |Streams(l)| == Pow(WORDS, l)
  {
    StreamCount(l);
    if l == 0 {
      assert StreamsFor(0, n, r) == {};
    } else {
      DrawIsUniform(l - 1, n, r);
      StreamsForCount(l, n, r);
      DrawStep(n, |Streams(l - 1)|, |StreamsFor(l - 1, n, r)|, Pow(WORDS % n, l - 1), |StreamsFor(l, n, r)|);
    }
  }

  lemma DrawStep(n: Modulus, s: int, t: int, p: int, x: int)
    requires n * t + p == s && x == (WORDS / n) * s + (WORDS % n) * t
    ensures n * x + (WORDS % n) * p == WORDS * s
  {
  }

  // ----- Strings

  type Byte = b: int | 0 <= b < 256

  /** binary.BigEndian.Uint32 */
  function WordOf(b: seq<Byte>): Word
    requires |b| == 4
  {
    (((b[0] as int) * 256 + b[1]) * 256 + b[2]) * 256 + b[3]
  }

  /** The first byte counts most. */
  lemma BigEndian(b: seq<Byte>)
    requires |b| == 4
    ensures WordOf(b) == b[0] as int * 0x100_0000 + b[1] as int * 0x1_0000 + b[2] as int * 0x100 + b[3] as int
  {
  }

  function BytesOf(w: Word): (b: seq<Byte>)
    ensures |b| == 4
  {
    [w / 256 / 256 / 256, w / 256 / 256 % 256, w / 256 % 256, w % 256]
  }

  lemma Digit(q: int, d: Byte, w: int)
    ensures q * 256 + d == w <==> q == w / 256 && d == w % 256
  {
  }

  /** Four uniform bytes make a uniform word: each word comes from exactly one block of bytes. */
  lemma WordsAreBlocks(w: Word, b: seq<Byte>)
    requires |b| == 4
    ensures WordOf(b) == w <==> b == BytesOf(w)
  {
    var two := (b[0] as int) * 256 + b[1];
    var three := two * 256 + b[2];
    Digit(three, b[3], w);
    Digit(two, b[2], w / 256);
    Digit(b[0], b[1], w / 256 / 256);
  }

  datatype CharsetError = EmptyCharset | NoEntropy

  /** The words of a buffer of entropy. */
  function Words(entropy: seq<Byte>, size: nat): (ws: seq<Word>)
    requires |entropy| == 4 * size
    ensures |ws| == size
    decreases size
  {
    if size == 0 then [] else [WordOf(entropy[..4])] + Words(entropy[4..], size - 1)
  }

  /** Word i is read from the i-th four bytes. */
  lemma {:induction false} WordAt(entropy: seq<Byte>, size: nat, i: nat)
    requires |entropy| == 4 * size && i < size
    ensures Words(entropy, size)[i] == WordOf(entropy[4 * i..4 * i + 4])
    decreases size
  {
    if i > 0 {
      WordAt(entropy[4..], size - 1, i - 1);
      assert entropy[4..][4 * (i - 1)..4 * (i - 1) + 4] == entropy[4 * i..4 * i + 4];
    }
  }

  /** The string drawn word by word; redraws come from `reader`, which is used up from the front. */
  function Text(charset: seq<char>, ws: seq<Word>, reader: seq<Word>): Option<string>
    requires 0 < |charset| < 0x8000_0000
    decreases |ws|
  {
    if ws == [] then Some("") else
    match Draw(ws[0], |charset|, reader)
    case None => None
    case Some((i, left)) => Prepend([charset[i]], Text(charset, ws[1..], left))
  }

  function Prepend(s: string, rest: Option<string>): Option<string> {
    if rest.None? then None else Some(s + rest.value)
  }

  lemma PrependTwice(s: string, t: string, rest: Option<string>)
    ensures Prepend(s, Prepend(t, rest)) == Prepend(s + t, rest)
    ensures Prepend("", rest) == rest
  {
    if rest.Some? {
      assert s + (t + rest.value) == s + t + rest.value;
      assert "" + rest.value == rest.value;
    }
  }

  lemma TextStep(buf: string, charset: seq<char>, w: Word, ws: seq<Word>, reader: seq<Word>)
    requires 0 < |charset| < 0x8000_0000
    ensures match Draw(w, |charset|, reader)
            case None => Text(charset, [w] + ws, reader) == None
            case Some((i, left)) =>
              Prepend(buf, Text(charset, [w] + ws, reader)) == Prepend(buf + [charset[i]], Text(charset, ws, left))
  {
    var d := Draw(w, |charset|, reader);
    assert ([w] + ws)[1..] == ws;
    if d.Some? {
      PrependTwice(buf, [charset[d.value.0]], Text(charset, ws, d.value.1));
    }
  }

  /** The loop of StringCharset: one rune per four bytes of entropy. */
  method DrawRunes(charset: seq<char>, size: nat, entropy: seq<Byte>, reader: seq<Word>) returns (r: Option<string>)
    requires 0 < |charset| < 0x8000_0000 && |entropy| == 4 * size
    ensures r == Text(charset, Words(entropy, size), reader)
  {
    var rest, source, buf := entropy, reader, "";
    ghost var whole := Text(charset, Words(entropy, size), reader);
    PrependTwice("", "", whole);
    for i := 0 to size
      invariant |rest| == 4 * (size - i)
      invariant whole == Prepend(buf, Text(charset, Words(rest, size - i), source))
    {
      var v := WordOf(rest[..4]);
      TextStep(buf, charset, v, Words(rest[4..], size - i - 1), source);
      var ci, left := UnbiasedModulo32(v, |charset|, source);
      if ci.Err? {
        return None;
      }
      rest, source, buf := rest[4..], left, buf + [charset[ci.value]];
    }
    assert buf + "" == buf;
    r := Some(buf);
  }

  lemma {:induction false} TextShape(charset: seq<char>, ws: seq<Word>, reader: seq<Word>)
    requires 0 < |charset| < 0x8000_0000
    ensures var t := Text(charset, ws, reader);
            t.Some? ==> |t.value| == |ws| && forall c :: c in t.value ==> c in charset
    decreases |ws|
  {
    if ws != [] {
      var d := Draw(ws[0], |charset|, reader);
      if d.Some? {
        TextShape(charset, ws[1..], d.value.1);
      }
    }
  }

  method StringCharset(charset: seq<char>, size: nat, entropy: Option<seq<Byte>>, reader: seq<Word>)
    returns (r: Result<string, CharsetError>)
    requires |charset| < 0x8000_0000
    requires entropy.Some? ==> |entropy.value| == 4 * size
    ensures size == 0 ==> r == Ok("")
    ensures size > 0 && charset == [] ==> r == Err(EmptyCharset)
    ensures size > 0 && charset != [] ==>
              r == if entropy.None? || Text(charset, Words(entropy.value, size), reader).None? then Err(NoEntropy)
                   else Ok(Text(charset, Words(entropy.value, size), reader).value)
    ensures r.Ok? ==> |r.value| == size && forall c :: c in r.value ==> c in charset
  {
    if size == 0 {
      return Ok("");
    }
    if charset == [] {
      return Err(EmptyCharset);
    }
    if entropy.None? {
      return Err(NoEntropy);
    }
    var text := DrawRunes(charset, size, entropy.value, reader);
    TextShape(charset, Words(entropy.value, size), reader);
    r := if text.None? then Err(NoEntropy) else Ok(text.value);
  }
}
