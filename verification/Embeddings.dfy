/** Vectors: the hashing embedder of rag/mudahurus_rag/embeddings.py and the
    cosine of rag/mudahurus_rag/vectorstore.py, over exact real numbers.
    `sqrt` stands for math.sqrt and `hash` for the integer of a SHA-1 digest. */
module Embeddings {
  import opened Text

  type Vector = seq<real>

  /** A product and a quotient, under names that the prover can match. */
  function Times(x: real, y: real): real {
    x * y
  }

  function Over(x: real, y: real): real
    requires y != 0.0
  {
    x / y
  }

  function Dot(a: Vector, b: Vector): real
    requires |a| == |b|
  {
    if a == [] then 0.0 else Times(a[0], b[0]) + Dot(a[1..], b[1..])
  }

  function SumSquares(a: Vector): real {
    if a == [] then 0.0 else Times(a[0], a[0]) + SumSquares(a[1..])
  }

  /** The square root is exact for this number. */
  predicate ExactRoot(sqrt: real -> real, x: real) {
    sqrt(x) >= 0.0 && Times(sqrt(x), sqrt(x)) == x
  }

  function Shorter(a: Vector, b: Vector): nat {
    if |a| < |b| then |a| else |b|
  }

  function Score(dot: real, na: real, nb: real): real {
    if na == 0.0 || nb == 0.0 then 0.0
    else
      NonZeroProduct(na, nb);
      Over(dot, Times(na, nb))
  }

  function Cosine(sqrt: real -> real, a: Vector, b: Vector): real {
    var n := Shorter(a, b);
    Score(Dot(a[..n], b[..n]), sqrt(SumSquares(a[..n])), sqrt(SumSquares(b[..n])))
  }

  // ---- arithmetic ----

  lemma PositiveProduct(x: real, y: real)
    requires x > 0.0 && y > 0.0
    ensures Times(x, y) > 0.0
  {
  }

  lemma Negated(x: real, y: real)
    ensures Times(-x, y) == -Times(x, y) && Times(x, -y) == -Times(x, y)
  {
  }

  lemma NonZeroProduct(x: real, y: real)
    requires x != 0.0 && y != 0.0
    ensures Times(x, y) != 0.0
  {
    PositiveProduct(if x > 0.0 then x else -x, if y > 0.0 then y else -y);
    Negated(x, y);
    Negated(-x, y);
  }

  lemma SquareSign(x: real)
    ensures Times(x, x) >= 0.0
    ensures x != 0.0 ==> Times(x, x) > 0.0
  {
    if x > 0.0 { PositiveProduct(x, x); }
    if x < 0.0 {
      PositiveProduct(-x, -x);
      Negated(x, -x);
      Negated(x, x);
    }
  }

  lemma Distribute(x: real, y: real, z: real)
    ensures Times(x + y, z) == Times(x, z) + Times(y, z)
    ensures Times(z, x + y) == Times(z, x) + Times(z, y)
  {
  }

  lemma Reorder(x: real, y: real, z: real)
    ensures Times(x, y) == Times(y, x)
    ensures Times(Times(x, y), z) == Times(x, Times(y, z))
  {
  }

  lemma PositiveFactor(m: real, x: real)
    requires m > 0.0 && Times(m, x) >= 0.0
    ensures x >= 0.0
  {
    if x < 0.0 {
      PositiveProduct(m, -x);
      Negated(m, x);
      assert false;
    }
  }

  lemma SquareOfProduct(x: real, y: real)
    ensures Times(Times(x, y), Times(x, y)) == Times(Times(x, x), Times(y, y))
  {
    Reorder(x, y, Times(x, y));
    Reorder(y, x, y);
    Reorder(x, y, y);
    Reorder(x, x, Times(y, y));
  }

  // ---- Cauchy-Schwarz ----

  lemma {:induction false} SumSquaresSign(a: Vector)
    ensures SumSquares(a) >= 0.0
  {
    if a != [] {
      SquareSign(a[0]);
      SumSquaresSign(a[1..]);
    }
  }

  /** The sum of squares of p*a - q*b. */
  function Difference(a: Vector, b: Vector, p: real, q: real): Vector
    requires |a| == |b|
  {
    if a == [] then [] else [Times(p, a[0]) - Times(q, b[0])] + Difference(a[1..], b[1..], p, q)
  }

  lemma SquareOfDifference(x: real, y: real)
    ensures Times(x - y, x - y) == Times(x, x) - 2.0 * Times(x, y) + Times(y, y)
  {
    Distribute(x, -y, x - y);
    Distribute(x, -y, x);
    Distribute(x, -y, y);
    Negated(x, x);
    Negated(y, x);
    Negated(y, y);
    Negated(x, y);
    Negated(y, x - y);
    Reorder(x, y, 0.0);
    Reorder(x, x - y, 0.0);
    Reorder(y, x - y, 0.0);
  }

  lemma MixedProduct(p: real, q: real, x: real, y: real)
    ensures Times(Times(p, x), Times(q, y)) == Times(Times(p, q), Times(x, y))
  {
    Reorder(p, x, Times(q, y));
    Reorder(x, q, y);
    Reorder(x, q, 0.0);
    Reorder(q, x, y);
    Reorder(p, q, Times(x, y));
  }

  lemma {:induction false} Expand(a: Vector, b: Vector, p: real, q: real)
    requires |a| == |b|
    ensures SumSquares(Difference(a, b, p, q))
         == Times(Times(p, p), SumSquares(a)) - 2.0 * Times(Times(p, q), Dot(a, b)) + Times(Times(q, q), SumSquares(b))
  {
    hide Times;
    if a == [] {
      TimesZero(Times(p, p));
      TimesZero(Times(p, q));
      TimesZero(Times(q, q));
    } else {
      var d := Difference(a, b, p, q);
      assert d[1..] == Difference(a[1..], b[1..], p, q);
      Expand(a[1..], b[1..], p, q);
      SquareOfDifference(Times(p, a[0]), Times(q, b[0]));
      SquareOfProduct(p, a[0]);
      SquareOfProduct(q, b[0]);
      MixedProduct(p, q, a[0], b[0]);
      Distribute(Times(a[0], a[0]), SumSquares(a[1..]), Times(p, p));
      Distribute(Times(b[0], b[0]), SumSquares(b[1..]), Times(q, q));
      Distribute(Times(a[0], b[0]), Dot(a[1..], b[1..]), Times(p, q));
    }
  }

  lemma TimesZero(x: real)
    ensures Times(x, 0.0) == 0.0
  {
  }

  /** The inner product never exceeds the product of the norms. */
  lemma CauchySchwarz(a: Vector, b: Vector, na: real, nb: real)
    requires |a| == |b| && na > 0.0 && nb > 0.0
    requires Times(na, na) == SumSquares(a) && Times(nb, nb) == SumSquares(b)
    ensures Dot(a, b) <= Times(na, nb)
  {
    hide Times, SumSquares, Dot, Difference;
    var m, d := Times(na, nb), Dot(a, b);
    Expand(a, b, nb, na);
    SumSquaresSign(Difference(a, b, nb, na));
    SquareOfProduct(na, nb);
    Reorder(Times(nb, nb), Times(na, na), 0.0);
    Reorder(nb, na, 0.0);
    Distribute(m, -d, m);
    Negated(m, d);
    PositiveProduct(na, nb);
    PositiveFactor(m, m - d);
  }

  function Opposite(a: Vector): (r: Vector)
    ensures |r| == |a|
  {
    if a == [] then [] else [-a[0]] + Opposite(a[1..])
  }

  lemma {:induction false} OppositeDot(a: Vector, b: Vector)
    requires |a| == |b|
    ensures Dot(Opposite(a), b) == -Dot(a, b) && SumSquares(Opposite(a)) == SumSquares(a)
  {
    if a != [] {
      OppositeDot(a[1..], b[1..]);
      assert Opposite(a)[1..] == Opposite(a[1..]);
      Negated(a[0], b[0]);
      Negated(a[0], a[0]);
      Negated(a[0], -a[0]);
    }
  }

  lemma UnitRatio(d: real, m: real)
    requires m > 0.0 && -m <= d <= m
    ensures -1.0 <= Over(d, m) <= 1.0
  {
    var r := Over(d, m);
    assert Times(m, r) == d;
    Distribute(1.0, -r, m);
    Distribute(1.0, r, m);
    Negated(m, r);
    assert Times(m, 1.0) == m;
    PositiveFactor(m, 1.0 - r);
    PositiveFactor(m, 1.0 + r);
  }

  /** Every score lies in [-1, 1], for vectors of any two lengths. */
  lemma CosineBounded(sqrt: real -> real, a: Vector, b: Vector)
    requires ExactRoot(sqrt, SumSquares(a[..Shorter(a, b)])) && ExactRoot(sqrt, SumSquares(b[..Shorter(a, b)]))
    ensures -1.0 <= Cosine(sqrt, a, b) <= 1.0
  {
    hide Times, Over, Dot, SumSquares;
    var n := Shorter(a, b);
    var x, y := a[..n], b[..n];
    var nx, ny := sqrt(SumSquares(x)), sqrt(SumSquares(y));
    if nx != 0.0 && ny != 0.0 {
      CauchySchwarz(x, y, nx, ny);
      OppositeDot(x, y);
      CauchySchwarz(Opposite(x), y, nx, ny);
      PositiveProduct(nx, ny);
      UnitRatio(Dot(x, y), Times(nx, ny));
    }
  }

  lemma {:induction false} DotSelf(a: Vector)
    ensures Dot(a, a) == SumSquares(a)
  {
    if a != [] { DotSelf(a[1..]); }
  }

  lemma RatioOne(m: real)
    requires m != 0.0
    ensures Over(m, m) == 1.0
  {
  }

  /** The score of a vector against itself is 1, unless its norm is 0. */
  lemma SelfScore(sqrt: real -> real, a: Vector)
    requires ExactRoot(sqrt, SumSquares(a))
    ensures Cosine(sqrt, a, a) == if SumSquares(a) == 0.0 then 0.0 else 1.0
  {
    hide Times, Over, Dot, SumSquares;
    assert a[..|a|] == a;
    DotSelf(a);
    var norm := sqrt(SumSquares(a));
    if norm != 0.0 {
      SquareSign(norm);
      RatioOne(SumSquares(a));
    } else {
      TimesZero(norm);
    }
  }

  /** The score times the two norms is the inner product of the common part. */
  lemma ScoreTimesNorms(sqrt: real -> real, a: Vector, b: Vector)
    ensures var n := if |a| < |b| then |a| else |b|;
            var na, nb := sqrt(SumSquares(a[..n])), sqrt(SumSquares(b[..n]));
            if na == 0.0 || nb == 0.0 then Cosine(sqrt, a, b) == 0.0
            else Times(Cosine(sqrt, a, b), Times(na, nb)) == Dot(a[..n], b[..n])
  {
    hide Times, Over, Dot, SumSquares;
    var n := Shorter(a, b);
    var na, nb := sqrt(SumSquares(a[..n])), sqrt(SumSquares(b[..n]));
    if na != 0.0 && nb != 0.0 {
      NonZeroProduct(na, nb);
      OverTimes(Dot(a[..n], b[..n]), Times(na, nb));
    }
  }

  /** Inner product and sum of squares take every coordinate once. */
  lemma {:induction false} DotAppends(a: Vector, b: Vector, x: real, y: real)
    requires |a| == |b|
    ensures Dot(a + [x], b + [y]) == Dot(a, b) + Times(x, y)
    ensures SumSquares(a + [x]) == SumSquares(a) + Times(x, x)
  {
    if a == [] {
      assert [] + [x] == [x] && [] + [y] == [y];
    } else {
      assert (a + [x])[1..] == a[1..] + [x] && (b + [y])[1..] == b[1..] + [y];
      DotAppends(a[1..], b[1..], x, y);
    }
  }

  // ---- normalisation ----

  function Scaled(v: Vector, norm: real): (r: Vector)
    requires norm != 0.0
    ensures |r| == |v|
  {
    seq(|v|, i requires 0 <= i < |v| => Over(v[i], norm))
  }

  function Normalised(sqrt: real -> real, v: Vector): Vector {
    var norm := sqrt(SumSquares(v));
    if norm == 0.0 then v else Scaled(v, norm)
  }

  lemma OverTimes(x: real, norm: real)
    requires norm != 0.0
    ensures Times(Over(x, norm), norm) == x
  {
  }

  lemma {:induction false} ScaledSquares(v: Vector, norm: real)
    requires norm != 0.0
    ensures Times(SumSquares(Scaled(v, norm)), Times(norm, norm)) == SumSquares(v)
  {
    hide Times, Over;
    if v == [] {
      TimesZero(Times(norm, norm));
      Reorder(Times(norm, norm), 0.0, 0.0);
    } else {
      var r := Scaled(v, norm);
      ScaledSquares(v[1..], norm);
      assert r[1..] == Scaled(v[1..], norm);
      OverTimes(v[0], norm);
      SquareOfProduct(r[0], norm);
      Distribute(Times(r[0], r[0]), SumSquares(r[1..]), Times(norm, norm));
    }
  }

  lemma UnitFactor(s: real, m: real)
    requires m != 0.0 && Times(s, m) == m
    ensures s == 1.0
  {
    assert Times(1.0, m) == m;
    if s - 1.0 != 0.0 {
      NonZeroProduct(s - 1.0, m);
      Distribute(s, -1.0, m);
      Negated(1.0, m);
      assert false;
    }
  }

  /** A normalised vector has norm 0 or 1. */
  lemma NormZeroOrOne(sqrt: real -> real, v: Vector)
    requires ExactRoot(sqrt, SumSquares(v))
    ensures SumSquares(Normalised(sqrt, v)) == if SumSquares(v) == 0.0 then 0.0 else 1.0
  {
    hide Times, SumSquares, Scaled;
    var norm := sqrt(SumSquares(v));
    if norm == 0.0 {
      TimesZero(norm);
    } else {
      SquareSign(norm);
      ScaledSquares(v, norm);
      UnitFactor(SumSquares(Scaled(v, norm)), SumSquares(v));
    }
  }

  // ---- the hashing embedder ----

  function Lower(c: char): char {
    if 'A' <= c <= 'Z' then ((c as int) + 32) as char else c
  }

  predicate IsAlnum(c: char) {
    'A' <= c <= 'Z' || 'a' <= c <= 'z' || IsDigit(c)
  }

  function Spaced(text: string): string {
    seq(|text|, i requires 0 <= i < |text| => if IsAlnum(text[i]) then Lower(text[i]) else ' ')
  }

  function Tokens(text: string): seq<string> {
    Words(Spaced(text))
  }

  function AddToken(v: Vector, h: nat): (r: Vector)
    requires v != []
    ensures |r| == |v|
  {
    var i := h % |v|;
    v[i := v[i] + if (h / 256) % 2 == 1 then 1.0 else -1.0]
  }

  function Bag(tokens: seq<string>, dim: nat, hash: string -> nat): (v: Vector)
    requires dim > 0
    ensures |v| == dim
  {
    if tokens == [] then seq(dim, _ => 0.0)
    else AddToken(Bag(tokens[..|tokens| - 1], dim, hash), hash(tokens[|tokens| - 1]))
  }

  function Embedding(text: string, dim: nat, hash: string -> nat, sqrt: real -> real): Vector
    requires dim > 0
  {
    Normalised(sqrt, Bag(Tokens(text), dim, hash))
  }

  /** The positions of the tokens whose hash leads to coordinate i, those with
      bit 8 set or those with bit 8 clear. */
  function At(tokens: seq<string>, dim: nat, hash: string -> nat, i: nat, bit: nat): set<nat>
    requires dim > 0
  {
    set k: nat | k < |tokens| && Leads(hash(tokens[k]), dim, i, bit)
  }

  predicate Leads(h: nat, dim: nat, i: nat, bit: nat)
    requires dim > 0
  {
    h % dim == i && h / 256 % 2 == bit
  }

  /** The tokens of coordinate i with bit 8 set, less those with bit 8 clear. */
  function Balance(tokens: seq<string>, dim: nat, hash: string -> nat, i: nat): int
    requires dim > 0
  {
    |At(tokens, dim, hash, i, 1)| - |At(tokens, dim, hash, i, 0)|
  }

  lemma AtLast(tokens: seq<string>, dim: nat, hash: string -> nat, i: nat, bit: nat)
    requires dim > 0 && tokens != []
    ensures var n := |tokens| - 1;
            |At(tokens, dim, hash, i, bit)| ==
            |At(tokens[..n], dim, hash, i, bit)|
            + if Leads(hash(tokens[n]), dim, i, bit) then 1 else 0
  {
    hide Leads;
    var n := |tokens| - 1;
    var all, front := At(tokens, dim, hash, i, bit), At(tokens[..n], dim, hash, i, bit);
    forall k: nat
      ensures k in all <==> k in front || (k == n && Leads(hash(tokens[n]), dim, i, bit))
    {
      if k < n { assert tokens[..n][k] == tokens[k]; }
    }
    hide At;
    assert n !in front by { OutOfFront(tokens, dim, hash, i, bit); }
    if Leads(hash(tokens[n]), dim, i, bit) {
      assert all == front + {n};
    } else {
      assert all == front;
    }
  }

  lemma OutOfFront(tokens: seq<string>, dim: nat, hash: string -> nat, i: nat, bit: nat)
    requires dim > 0 && tokens != []
    ensures |tokens| - 1 !in At(tokens[..|tokens| - 1], dim, hash, i, bit)
  {
    hide Leads;
  }

  /** Each coordinate of the bag is its balance of tokens. */
  lemma {:induction false} BagCounts(tokens: seq<string>, dim: nat, hash: string -> nat, i: nat)
    requires dim > 0 && i < dim
    ensures Bag(tokens, dim, hash)[i] == Balance(tokens, dim, hash, i) as real
  {
    if tokens == [] {
      assert At(tokens, dim, hash, i, 1) == {} && At(tokens, dim, hash, i, 0) == {};
    } else {
      var n := |tokens| - 1;
      BagCounts(tokens[..n], dim, hash, i);
      AtLast(tokens, dim, hash, i, 1);
      AtLast(tokens, dim, hash, i, 0);
      hide At;
      AddedAt(Bag(tokens[..n], dim, hash), hash(tokens[n]), i);
    }
  }

  lemma AddedAt(v: Vector, h: nat, i: nat)
    requires i < |v|
    ensures AddToken(v, h)[i] ==
            v[i] + (if h % |v| == i then (if h / 256 % 2 == 1 then 1.0 else -1.0) else 0.0)
    ensures h / 256 % 2 == 0 || h / 256 % 2 == 1
  {
  }

  /** What an embedding is: the balances of the text's tokens, divided by their
      norm when that is not 0. */
  lemma EmbeddingIs(text: string, dim: nat, hash: string -> nat, sqrt: real -> real, counts: Vector)
    requires dim > 0 && |counts| == dim
    requires forall i :: 0 <= i < dim ==> counts[i] == Balance(Tokens(text), dim, hash, i) as real
    ensures var e, norm := Embedding(text, dim, hash, sqrt), sqrt(SumSquares(counts));
            |e| == dim && forall i :: 0 <= i < dim ==> if norm == 0.0 then e[i] == counts[i]
                                                      else Times(e[i], norm) == counts[i]
  {
    var bag := Bag(Tokens(text), dim, hash);
    forall i | 0 <= i < dim
      ensures bag[i] == counts[i]
    {
      BagCounts(Tokens(text), dim, hash, i);
    }
    assert bag == counts;
    hide Times, Over, SumSquares, Bag, Balance, Tokens;
    var norm := sqrt(SumSquares(counts));
    if norm != 0.0 {
      forall i | 0 <= i < dim
        ensures Times(Over(counts[i], norm), norm) == counts[i]
      {
        OverTimes(counts[i], norm);
      }
    }
  }

  /** A text of one token is embedded as a unit vector along that token's
      coordinate, with the token's sign. */
  lemma OneTokenEmbedding(text: string, dim: nat, hash: string -> nat, sqrt: real -> real)
    requires dim > 0 && |Tokens(text)| == 1 && ExactRoot(sqrt, 1.0)
    ensures var e, h := Embedding(text, dim, hash, sqrt), hash(Tokens(text)[0]);
            && |e| == dim && SumSquares(e) == 1.0
            && (forall i :: 0 <= i < dim ==>
                              e[i] == if i != h % dim then 0.0 else if h / 256 % 2 == 1 then 1.0 else -1.0)
  {
    var tokens := Tokens(text);
    var h := hash(tokens[0]);
    var sign := if h / 256 % 2 == 1 then 1.0 else -1.0;
    var bag := Bag(tokens, dim, hash);
    assert tokens[..0] == [];
    forall i | 0 <= i < dim
      ensures bag[i] == if i == h % dim then sign else 0.0
    {
      AddedAt(Bag([], dim, hash), h, i);
    }
    hide Bag, Tokens;
    OneCoordinate(bag, h % dim, sign);
    RootOfOne(sqrt);
    forall i | 0 <= i < dim
      ensures Over(bag[i], 1.0) == bag[i]
    {
    }
    hide Over, SumSquares;
    assert Scaled(bag, 1.0) == bag;
  }

  lemma RootOfOne(sqrt: real -> real)
    requires ExactRoot(sqrt, 1.0)
    ensures sqrt(1.0) == 1.0
  {
    var r := sqrt(1.0);
    Distribute(r, -1.0, r + 1.0);
    Distribute(r, 1.0, r);
    Negated(1.0, r + 1.0);
    assert Times(1.0, r + 1.0) == r + 1.0 && Times(r, r + 1.0) == Times(r, r) + Times(r, 1.0);
    if r - 1.0 != 0.0 { NonZeroProduct(r - 1.0, r + 1.0); }
  }

  lemma {:induction false} OneCoordinate(v: Vector, j: nat, sign: real)
    requires j < |v| && (sign == 1.0 || sign == -1.0)
    requires forall i :: 0 <= i < |v| ==> v[i] == if i == j then sign else 0.0
    ensures SumSquares(v) == 1.0
  {
    if j == 0 {
      AllZero(v[1..]);
    } else {
      OneCoordinate(v[1..], j - 1, sign);
    }
  }

  lemma {:induction false} AllZero(v: Vector)
    requires forall i :: 0 <= i < |v| ==> v[i] == 0.0
    ensures SumSquares(v) == 0.0
  {
    if v != [] { AllZero(v[1..]); }
  }

  // ---- what a token is ----

  /** Letters in lower case, and everything else as it is. */
  lemma LowerPairs(k: nat)
    requires k < 26
    ensures Lower("ABCDEFGHIJKLMNOPQRSTUVWXYZ"[k]) == "abcdefghijklmnopqrstuvwxyz"[k]
    ensures Lower("abcdefghijklmnopqrstuvwxyz"[k]) == "abcdefghijklmnopqrstuvwxyz"[k]
  {
  }

  lemma SpacedConcat(a: string, b: string)
    ensures Spaced(a + b) == Spaced(a) + Spaced(b)
  {
  }

  /** A run of letters and digits is one token, in lower case, and what follows
      it behind any other character is read on its own. */
  lemma TokenFirst(w: string, rest: string)
    requires w != [] && forall i :: 0 <= i < |w| ==> IsAlnum(w[i])
    requires rest == [] || !IsAlnum(rest[0])
    ensures var tokens := Tokens(w + rest);
            && tokens == tokens[..1] + Tokens(rest) && |tokens[0]| == |w|
            && forall i :: 0 <= i < |w| ==> tokens[0][i] == Lower(w[i])
  {
    SpacedConcat(w, rest);
    assert NoSpace(Spaced(w)) by {
      assert forall i :: 0 <= i < |w| ==> !IsSpace(Lower(w[i]));
    }
    WordFirst(Spaced(w), Spaced(rest));
    hide Words;
    assert Tokens(w + rest)[0] == Spaced(w);
  }

  /** Any other character is passed over. */
  lemma TokenSkips(c: char, rest: string)
    requires !IsAlnum(c)
    ensures Tokens([c] + rest) == Tokens(rest) && Tokens([]) == []
  {
    SpacedConcat([c], rest);
    var s := [' '] + Spaced(rest);
    assert Spaced([c]) == [' '] && s[1..] == Spaced(rest);
  }

  /** The inner loop of embed: one vector updated in place. */
  method CountTokens(tokens: seq<string>, dim: nat, hash: string -> nat) returns (vec: array<real>)
    requires dim > 0
    ensures fresh(vec) && vec[..] == Bag(tokens, dim, hash)
    ensures vec.Length == dim && forall i :: 0 <= i < dim ==> vec[i] == Balance(tokens, dim, hash, i) as real
  {
    vec := new real[dim](_ => 0.0);
    assert vec[..] == Bag(tokens[..0], dim, hash);
    for k := 0 to |tokens|
      invariant vec[..] == Bag(tokens[..k], dim, hash)
    {
      assert tokens[..k + 1][..k] == tokens[..k];
      var h := hash(tokens[k]);
      var idx := h % dim;
      var sign := if (h / 256) % 2 == 1 then 1.0 else -1.0;
      vec[idx] := vec[idx] + sign;
    }
    assert tokens[..|tokens|] == tokens;
    forall i | 0 <= i < dim
      ensures vec[..][i] == Balance(tokens, dim, hash, i) as real
    {
      BagCounts(tokens, dim, hash, i);
    }
  }

  method Embed(texts: seq<string>, dim: nat, hash: string -> nat, sqrt: real -> real) returns (out: seq<Vector>)
    requires dim > 0
    ensures |out| == |texts| && forall i :: 0 <= i < |texts| ==> out[i] == Embedding(texts[i], dim, hash, sqrt)
  {
    out := [];
    for k := 0 to |texts|
      invariant |out| == k && forall i :: 0 <= i < k ==> out[i] == Embedding(texts[i], dim, hash, sqrt)
    {
      var vec := CountTokens(Tokens(texts[k]), dim, hash);
      out := out + [Normalised(sqrt, vec[..])];
    }
  }

  lemma AddCommutes(v: Vector, g: nat, h: nat)
    requires v != []
    ensures AddToken(AddToken(v, g), h) == AddToken(AddToken(v, h), g)
  {
  }

  /** Any token of the bag can be counted last. */
  lemma {:induction false} CountLast(tokens: seq<string>, dim: nat, hash: string -> nat, k: nat)
    requires dim > 0 && k < |tokens|
    ensures Bag(tokens, dim, hash) == AddToken(Bag(tokens[..k] + tokens[k + 1..], dim, hash), hash(tokens[k]))
    decreases |tokens|
  {
    var n := |tokens| - 1;
    if k == n {
      assert tokens[..k] + tokens[k + 1..] == tokens[..n];
    } else {
      var init := tokens[..n];
      CountLast(init, dim, hash, k);
      var rest := init[..k] + init[k + 1..];
      var others := tokens[..k] + tokens[k + 1..];
      assert others[..|others| - 1] == rest && others[|others| - 1] == tokens[n];
      AddCommutes(Bag(rest, dim, hash), hash(tokens[k]), hash(tokens[n]));
    }
  }

  lemma {:induction false} BagOfMultiset(s: seq<string>, t: seq<string>, dim: nat, hash: string -> nat)
    requires dim > 0 && multiset(s) == multiset(t)
    ensures Bag(s, dim, hash) == Bag(t, dim, hash)
    decreases |s|
  {
    if s == [] {
      assert |multiset(t)| == 0;
    } else {
      var n := |s| - 1;
      assert s == s[..n] + [s[n]];
      assert s[n] in multiset(t);
      var k :| 0 <= k < |t| && t[k] == s[n];
      assert t == t[..k] + [t[k]] + t[k + 1..];
      var rest := t[..k] + t[k + 1..];
      assert multiset(s[..n]) == multiset(s) - multiset{s[n]} == multiset(rest);
      BagOfMultiset(s[..n], rest, dim, hash);
      CountLast(t, dim, hash, k);
    }
  }

  /** An embedding depends on nothing but how often each token occurs, and its
      norm is 0 or 1. */
  lemma EmbeddingOfTokens(text1: string, text2: string, dim: nat, hash: string -> nat, sqrt: real -> real)
    requires dim > 0 && multiset(Tokens(text1)) == multiset(Tokens(text2))
    requires ExactRoot(sqrt, SumSquares(Bag(Tokens(text1), dim, hash)))
    ensures Embedding(text1, dim, hash, sqrt) == Embedding(text2, dim, hash, sqrt)
    ensures SumSquares(Embedding(text1, dim, hash, sqrt)) in {0.0, 1.0}
  {
    BagOfMultiset(Tokens(text1), Tokens(text2), dim, hash);
    NormZeroOrOne(sqrt, Bag(Tokens(text1), dim, hash));
  }
}
