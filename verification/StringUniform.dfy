// Random strings are uniform: redraws of one rune shift the words that the later runes see, and still every string
// of a given size comes from equally many inputs.

module StringUniform {
  import opened Wrappers
  import opened Ranges
  import opened Counting
  import opened UnbiasedModulo

  /** The indexes drawn for the words ws; redraws come from `reader`. */
  function Indexes(n: Modulus, ws: seq<Word>, reader: seq<Word>): Option<seq<int>>
    decreases |ws|
  {
    if ws == [] then Some([]) else
    match Draw(ws[0], n, reader)
    case None => None
    case Some((i, left)) =>
      var rest := Indexes(n, ws[1..], left);
      if rest.None? then None else Some([i] + rest.value)
  }

  function Pick(charset: seq<char>, at: seq<int>): string
    requires forall i :: 0 <= i < |at| ==> 0 <= at[i] < |charset|
  {
    seq(|at|, i requires 0 <= i < |at| => charset[at[i]])
  }

  /** The string is what the indexes pick from the charset. */
  lemma {:induction false} TextPicks(charset: seq<char>, ws: seq<Word>, reader: seq<Word>)
    requires 0 < |charset| < 0x8000_0000
    ensures var at := Indexes(|charset|, ws, reader);
            match Text(charset, ws, reader)
            case None => at == None
            case Some(t) => at.Some? && |at.value| == |ws|
                            && (forall i :: 0 <= i < |ws| ==> 0 <= at.value[i] < |charset|)
                            && t == Pick(charset, at.value)
    decreases |ws|
  {
    if ws != [] {
      var d := Draw(ws[0], |charset|, reader);
      if d.Some? {
        TextPicks(charset, ws[1..], d.value.1);
      }
    }
  }

  type Input = (seq<Word>, seq<Word>)

  /** The inputs, words and l words to redraw from, that give the indexes `at`. */
  ghost function Giving(n: Modulus, at: seq<int>, l: nat): set<Input> {
    set p | p in Product(Streams(|at|), Streams(l)) && Indexes(n, p.0, p.1) == Some(at)
  }

  /** How many there are, whatever the indexes. */
  function Ways(n: Modulus, k: nat, l: nat): nat
    decreases k + l
  {
    if k == 0 then Pow(WORDS, l)
    else (WORDS / n) * Ways(n, k - 1, l) + if l == 0 then 0 else (WORDS % n) * Ways(n, k, l - 1)
  }

  lemma {:induction false} InStreams(l: nat, ws: seq<Word>)
    ensures ws in Streams(l) <==> |ws| == l
  {
    if l > 0 {
      InCross(AllWords(), Streams(l - 1));
      if ws != [] {
        InStreams(l - 1, ws[1..]);
      }
    }
  }

  lemma InGiving(n: Modulus, at: seq<int>, l: nat, p: Input)
    ensures p in Giving(n, at, l) <==> |p.0| == |at| && |p.1| == l && Indexes(n, p.0, p.1) == Some(at)
  {
    InStreams(|at|, p.0);
    InStreams(l, p.1);
    assert p == (p.0, p.1);
  }

  ghost function Used(n: Modulus, at: seq<int>, l: nat): set<Input> {
    set p | p in Giving(n, at, l) && p.0 != [] && Accepted(p.0[0], n)
  }

  ghost function Redrawn(n: Modulus, at: seq<int>, l: nat): set<Input> {
    set p | p in Giving(n, at, l) && p.0 != [] && !Accepted(p.0[0], n)
  }

  // ----- The first word is used

  function Use(t: (Word, Input)): Input { ([t.0] + t.1.0, t.1.1) }

  lemma IndexesOfUsed(n: Modulus, v: Word, p: Input, at: seq<int>)
    requires Accepted(v, n) && at != []
    ensures Indexes(n, [v] + p.0, p.1) == Some(at) <==> High(v, n) == at[0] && Indexes(n, p.0, p.1) == Some(at[1..])
  {
    assert ([v] + p.0)[1..] == p.0;
    var rest := Indexes(n, p.0, p.1);
    if rest.Some? {
      assert ([High(v, n)] + rest.value)[1..] == rest.value;
      assert at == [at[0]] + at[1..];
    }
  }

  lemma UseLands(n: Modulus, at: seq<int>, l: nat, t: (Word, Input))
    requires at != [] && t in Product(WordsFor(n, at[0]), Giving(n, at[1..], l))
    ensures Use(t) in Used(n, at, l)
  {
    InGiving(n, at[1..], l, t.1);
    InGiving(n, at, l, Use(t));
    IndexesOfUsed(n, t.0, t.1, at);
  }

  lemma UseCovers(n: Modulus, at: seq<int>, l: nat, p: Input)
    requires at != [] && p in Used(n, at, l)
    ensures exists t :: t in Product(WordsFor(n, at[0]), Giving(n, at[1..], l)) && Use(t) == p
  {
    var v, rest := p.0[0], (p.0[1..], p.1);
    assert p.0 == [v] + p.0[1..];
    InGiving(n, at, l, p);
    IndexesOfUsed(n, v, rest, at);
    InGiving(n, at[1..], l, rest);
    assert Use((v, rest)) == p;
  }

  lemma UseIsInjective(t: (Word, Input), u: (Word, Input))
    requires Use(t) == Use(u)
    ensures t == u
  {
    assert ([t.0] + t.1.0)[1..] == t.1.0 && ([u.0] + u.1.0)[1..] == u.1.0;
    assert Use(t).0[0] == t.0 && Use(u).0[0] == u.0;
    assert t == (t.0, (t.1.0, t.1.1)) && u == (u.0, (u.1.0, u.1.1));
  }

  lemma UsedCount(n: Modulus, at: seq<int>, l: nat)
    requires at != [] && 0 <= at[0] < n
    ensures |Used(n, at, l)| == (WORDS / n) * |Giving(n, at[1..], l)|
  {
    var from := Product(WordsFor(n, at[0]), Giving(n, at[1..], l));
    forall t | t in from ensures Use(t) in Used(n, at, l) { UseLands(n, at, l, t); }
    forall t, u | t in from && u in from && Use(t) == Use(u) ensures t == u { UseIsInjective(t, u); }
    forall p | p in Used(n, at, l) ensures exists t :: t in from && Use(t) == p { UseCovers(n, at, l, p); }
    SameSize(from, Used(n, at, l), Use);
    ProductSize(WordsFor(n, at[0]), Giving(n, at[1..], l));
    IndexIsUniform(n, at[0]);
  }

  // ----- The first word is redrawn: the reader's first word takes its place

  function Redraw(t: (Word, Input)): Input {
    if t.1.0 == [] then t.1 else ([t.0] + t.1.0[1..], [t.1.0[0]] + t.1.1)
  }

  lemma IndexesOfRedrawn(n: Modulus, v: Word, p: Input)
    requires !Accepted(v, n) && p.0 != []
    ensures Indexes(n, Redraw((v, p)).0, Redraw((v, p)).1) == Indexes(n, p.0, p.1)
  {
    assert ([v] + p.0[1..])[1..] == p.0[1..];
    assert ([p.0[0]] + p.1)[1..] == p.1;
  }

  lemma RedrawLands(n: Modulus, at: seq<int>, l: nat, t: (Word, Input))
    requires at != [] && l > 0 && t in Product(RejectedWords(n), Giving(n, at, l - 1))
    ensures Redraw(t) in Redrawn(n, at, l)
  {
  }

  lemma RedrawCovers(n: Modulus, at: seq<int>, l: nat, p: Input)
    requires at != [] && p in Redrawn(n, at, l)
    ensures l > 0 && exists t :: t in Product(RejectedWords(n), Giving(n, at, l - 1)) && Redraw(t) == p
  {
    InGiving(n, at, l, p);
    assert p.1 != [];
    var v, rest := p.0[0], ([p.1[0]] + p.0[1..], p.1[1..]);
    assert p.0 == [v] + p.0[1..] && p.1 == [p.1[0]] + p.1[1..];
    assert rest.0[1..] == p.0[1..];
    assert Redraw((v, rest)) == p;
    IndexesOfRedrawn(n, v, rest);
    InGiving(n, at, l - 1, rest);
  }

  lemma RedrawIsInjective(t: (Word, Input), u: (Word, Input))
    requires t.1.0 != [] && u.1.0 != [] && Redraw(t) == Redraw(u)
    ensures t == u
  {
    assert ([t.0] + t.1.0[1..])[1..] == t.1.0[1..] && ([u.0] + u.1.0[1..])[1..] == u.1.0[1..];
    assert ([t.1.0[0]] + t.1.1)[1..] == t.1.1 && ([u.1.0[0]] + u.1.1)[1..] == u.1.1;
    assert Redraw(t).0[0] == t.0 && Redraw(u).0[0] == u.0;
    assert Redraw(t).1[0] == t.1.0[0] && Redraw(u).1[0] == u.1.0[0];
    assert t.1.0 == [t.1.0[0]] + t.1.0[1..] && u.1.0 == [u.1.0[0]] + u.1.0[1..];
    assert t == (t.0, (t.1.0, t.1.1)) && u == (u.0, (u.1.0, u.1.1));
  }

  lemma RedrawnCount(n: Modulus, at: seq<int>, l: nat)
    requires at != []
    ensures |Redrawn(n, at, l)| == if l == 0 then 0 else (WORDS % n) * |Giving(n, at, l - 1)|
  {
    forall p | p in Redrawn(n, at, l) ensures l > 0 { RedrawCovers(n, at, l, p); }
    if l == 0 {
      assert Redrawn(n, at, l) == {};
    } else {
      var from := Product(RejectedWords(n), Giving(n, at, l - 1));
      forall t | t in from ensures Redraw(t) in Redrawn(n, at, l) && t.1.0 != [] {
        RedrawLands(n, at, l, t);
        InGiving(n, at, l - 1, t.1);
      }
      forall t, u | t in from && u in from && Redraw(t) == Redraw(u) ensures t == u { RedrawIsInjective(t, u); }
      forall p | p in Redrawn(n, at, l) ensures exists t :: t in from && Redraw(t) == p { RedrawCovers(n, at, l, p); }
      SameSize(from, Redrawn(n, at, l), Redraw);
      ProductSize(RejectedWords(n), Giving(n, at, l - 1));
      RejectedCount(n);
    }
  }

  // ----- All together

  lemma GivingNothing(n: Modulus, l: nat)
    ensures |Giving(n, [], l)| == Pow(WORDS, l)
  {
    var none: set<seq<Word>> := {[]};
    forall p ensures p in Giving(n, [], l) <==> p in Product(none, Streams(l)) {
      InGiving(n, [], l, p);
      InStreams(l, p.1);
      assert p == (p.0, p.1);
    }
    assert Giving(n, [], l) == Product(none, Streams(l));
    ProductSize(none, Streams(l));
    StreamCount(l);
  }

  lemma GivingSplits(n: Modulus, at: seq<int>, l: nat)
    requires at != []
    ensures Giving(n, at, l) == Used(n, at, l) + Redrawn(n, at, l)
    ensures Used(n, at, l) !! Redrawn(n, at, l)
  {
    forall p | p in Giving(n, at, l) ensures p.0 != [] { InGiving(n, at, l, p); }
  }

  /** Every string of a given size comes from equally many inputs, redraws included. */
  lemma {:induction false} StringIsUniform(n: Modulus, at: seq<int>, l: nat)
    requires forall i :: 0 <= i < |at| ==> 0 <= at[i] < n
    ensures |Giving(n, at, l)| == Ways(n, |at|, l)
    decreases |at| + l
  {
    if at == [] {
      GivingNothing(n, l);
    } else {
      GivingSplits(n, at, l);
      DisjointSize(Used(n, at, l), Redrawn(n, at, l));
      UsedCount(n, at, l);
      StringIsUniform(n, at[1..], l);
      RedrawnCount(n, at, l);
      if l > 0 {
        StringIsUniform(n, at, l - 1);
      }
    }
  }
}
