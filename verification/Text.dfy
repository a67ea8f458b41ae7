/** Strings shared by the modules: decimal numbers, splitting and white space.
    A Go string is a `string` whose characters are its bytes; a Python string is
    a `string` of code points. */
module Text {

  datatype Option<+T> = None | Some(value: T)

  /** A number read from the front of a text, and what follows it. */
  datatype Scanned<+T> = Stuck | Scanned(value: T, rest: string)

  predicate HasPrefix(s: string, p: string) {
    |p| <= |s| && s[..|p|] == p
  }

  lemma PrefixOfConcat(p: string, r: string)
    ensures HasPrefix(p + r, p) && (p + r)[|p|..] == r
  {
  }

  lemma PrefixGrows(s: string, r: string, p: string)
    requires HasPrefix(s, p)
    ensures HasPrefix(s + r, p)
  {
  }

  lemma Assoc(a: string, b: string, c: string)
    ensures (a + b) + c == a + (b + c)
  {
  }

  // ---- decimal numbers ----

  predicate IsDigit(c: char) {
    '0' <= c <= '9'
  }

  predicate AllDigits(s: string) {
    forall i :: 0 <= i < |s| ==> IsDigit(s[i])
  }

  /** Plain decimal notation, as `%d` prints a non-negative number. */
  function Dec(n: nat): (s: string)
    ensures s != [] && AllDigits(s)
  {
    if n < 10 then ["0123456789"[n]] else Dec(n / 10) + ["0123456789"[n % 10]]
  }

  function Value(s: string): nat
    requires AllDigits(s)
  {
    if s == [] then 0
    else Value(s[..|s| - 1]) * 10 + (s[|s| - 1] as int - '0' as int)
  }

  lemma {:induction false} ValueOfDec(n: nat)
    ensures Value(Dec(n)) == n
  {
    if n >= 10 {
      ValueOfDec(n / 10);
      assert Dec(n)[..|Dec(n)| - 1] == Dec(n / 10);
    }
  }

  lemma DecInjective(m: nat, n: nat)
    requires Dec(m) == Dec(n)
    ensures m == n
  {
    ValueOfDec(m);
    ValueOfDec(n);
  }

  function Pow10(k: nat): nat {
    if k == 0 then 1 else 10 * Pow10(k - 1)
  }

  /** A number has at most k digits exactly when it is below 10^k. */
  lemma {:induction false} DecWidth(n: nat, k: nat)
    requires k >= 1
    ensures |Dec(n)| <= k <==> n < Pow10(k)
    decreases k
  {
    if k > 1 {
      if n >= 10 {
        DecWidth(n / 10, k - 1);
        assert n / 10 < Pow10(k - 1) <==> n < 10 * Pow10(k - 1);
      } else {
        Pow10Positive(k - 1);
      }
    } else {
      assert Pow10(1) == 10 * Pow10(0) == 10;
    }
  }

  lemma {:induction false} Pow10Positive(k: nat)
    ensures Pow10(k) >= 1
  {
    if k > 0 { Pow10Positive(k - 1); }
  }

  function Repeat(c: char, n: nat): (s: string)
    ensures |s| == n
    ensures forall i :: 0 <= i < n ==> s[i] == c
  {
    seq(n, _ => c)
  }

  function PadLeft(s: string, width: nat, fill: char): (r: string)
    ensures |r| == if |s| < width then width else |s|
  {
    if |s| < width then Repeat(fill, width - |s|) + s else s
  }

  lemma {:induction false} ValueOfZeros(k: nat, s: string)
    requires AllDigits(s)
    ensures AllDigits(Repeat('0', k) + s)
    ensures Value(Repeat('0', k) + s) == Value(s)
    decreases |s| + k
  {
    var z := Repeat('0', k) + s;
    if s != [] {
      ValueOfZeros(k, s[..|s| - 1]);
      assert z[..|z| - 1] == Repeat('0', k) + s[..|s| - 1];
    } else if k > 0 {
      ValueOfZeros(k - 1, s);
      assert z[..|z| - 1] == Repeat('0', k - 1) + s;
    }
  }

  /** Zero-padded decimal, as `%0<width>d` prints it. */
  function ZeroPadded(n: nat, width: nat): (r: string)
    ensures AllDigits(r)
  {
    PadLeft(Dec(n), width, '0')
  }

  lemma ValueOfZeroPadded(n: nat, width: nat)
    ensures Value(ZeroPadded(n, width)) == n
  {
    ValueOfDec(n);
    if |Dec(n)| < width { ValueOfZeros(width - |Dec(n)|, Dec(n)); }
  }

  /** Length of the longest run of digits at the front. */
  function DigitRun(s: string): (n: nat)
    ensures n <= |s| && AllDigits(s[..n])
    ensures n < |s| ==> !IsDigit(s[n])
  {
    if s == [] || !IsDigit(s[0]) then 0 else 1 + DigitRun(s[1..])
  }

  /** Reads a decimal number from the front; stuck when there is no digit. */
  function ScanNat(s: string): Scanned<nat> {
    var n := DigitRun(s);
    if n == 0 then Stuck else Scanned(Value(s[..n]), s[n..])
  }

  lemma {:induction false} DigitRunStops(ds: string, rest: string)
    requires AllDigits(ds) && (rest == [] || !IsDigit(rest[0]))
    ensures DigitRun(ds + rest) == |ds|
  {
    if ds != [] {
      DigitRunStops(ds[1..], rest);
      assert (ds + rest)[1..] == ds[1..] + rest;
    } else {
      assert ds + rest == rest;
    }
  }

  lemma ScanDec(n: nat, rest: string)
    requires rest == [] || !IsDigit(rest[0])
    ensures ScanNat(Dec(n) + rest) == Scanned(n, rest)
  {
    DigitRunStops(Dec(n), rest);
    PrefixOfConcat(Dec(n), rest);
    ValueOfDec(n);
  }

  // ---- splitting ----

  /** Splits at every occurrence of the separator, as Go's `strings.Split`. */
  function Split(s: string, sep: char): (parts: seq<string>)
    ensures parts != []
  {
    if s == [] then [[]]
    else if s[0] == sep then [[]] + Split(s[1..], sep)
    else
      var tail := Split(s[1..], sep);
      [[s[0]] + tail[0]] + tail[1..]
  }

  lemma {:induction false} SplitNoSeparator(s: string, sep: char)
    requires sep !in s
    ensures Split(s, sep) == [s]
  {
    if s != [] {
      SplitNoSeparator(s[1..], sep);
      assert [s[0]] + s[1..] == s;
    }
  }

  lemma {:induction false} SplitAtSeparator(a: string, sep: char, b: string)
    requires sep !in a
    ensures Split(a + [sep] + b, sep) == [a] + Split(b, sep)
  {
    var s := a + [sep] + b;
    if a == [] {
      assert s[1..] == b;
    } else {
      SplitAtSeparator(a[1..], sep, b);
      assert s[1..] == a[1..] + [sep] + b;
      assert [s[0]] + a[1..] == a;
    }
  }

  // ---- white space, as Python's str.split and str.strip see it ----

  predicate IsSpace(c: char) {
    var n := c as int;
    9 <= n <= 13 || 28 <= n <= 32 || n == 0x85 || n == 0xA0 || n == 0x1680
    || 0x2000 <= n <= 0x200A || n == 0x2028 || n == 0x2029 || n == 0x202F
    || n == 0x205F || n == 0x3000
  }

  predicate NoSpace(w: string) {
    forall i :: 0 <= i < |w| ==> !IsSpace(w[i])
  }

  predicate IsWord(w: string) {
    w != [] && NoSpace(w)
  }

  function WordLen(s: string): (n: nat)
    ensures n <= |s| && NoSpace(s[..n])
    ensures n < |s| ==> IsSpace(s[n])
  {
    if s == [] || IsSpace(s[0]) then 0 else 1 + WordLen(s[1..])
  }

  /** `text.split()` */
  function Words(s: string): (ws: seq<string>)
    ensures forall i :: 0 <= i < |ws| ==> IsWord(ws[i])
    decreases |s|
  {
    if s == [] then []
    else if IsSpace(s[0]) then Words(s[1..])
    else
      var n := WordLen(s);
      [s[..n]] + Words(s[n..])
  }

  /** `" ".join(ws)` */
  function Join(ws: seq<string>): string {
    if ws == [] then []
    else if |ws| == 1 then ws[0]
    else ws[0] + [' '] + Join(ws[1..])
  }

  lemma {:induction false} WordLenStops(w: string, rest: string)
    requires NoSpace(w) && (rest == [] || IsSpace(rest[0]))
    ensures WordLen(w + rest) == |w|
  {
    if w != [] {
      WordLenStops(w[1..], rest);
      assert (w + rest)[1..] == w[1..] + rest;
    } else {
      assert w + rest == rest;
    }
  }

  lemma WordFirst(w: string, rest: string)
    requires IsWord(w) && (rest == [] || IsSpace(rest[0]))
    ensures Words(w + rest) == [w] + Words(rest)
  {
    WordLenStops(w, rest);
    assert (w + rest)[0] == w[0];
    PrefixOfConcat(w, rest);
  }

  /** Joining words with blanks and splitting again gives the words back. */
  lemma {:induction false} WordsOfJoin(ws: seq<string>)
    requires forall i :: 0 <= i < |ws| ==> IsWord(ws[i])
    ensures Words(Join(ws)) == ws
  {
    if |ws| == 1 {
      WordFirst(ws[0], []);
      assert ws[0] + [] == ws[0];
    } else if |ws| > 1 {
      WordsOfJoin(ws[1..]);
      var rest := [' '] + Join(ws[1..]);
      assert rest[1..] == Join(ws[1..]);
      assert Join(ws) == ws[0] + rest;
      WordFirst(ws[0], rest);
    }
  }

  function StripLeft(s: string): string {
    if s != [] && IsSpace(s[0]) then StripLeft(s[1..]) else s
  }

  function StripRight(s: string): string {
    if s != [] && IsSpace(s[|s| - 1]) then StripRight(s[..|s| - 1]) else s
  }

  /** `s.strip()` */
  function Strip(s: string): string {
    StripRight(StripLeft(s))
  }

  lemma {:induction false} StripRightKeepsFront(s: string)
    requires s == [] || !IsSpace(s[0])
    ensures StripRight(s) == [] || !IsSpace(StripRight(s)[0])
  {
    if s != [] && IsSpace(s[|s| - 1]) { StripRightKeepsFront(s[..|s| - 1]); }
  }

  lemma {:induction false} StripRightEnds(s: string)
    ensures var r := StripRight(s); r == [] || !IsSpace(r[|r| - 1])
  {
    if s != [] && IsSpace(s[|s| - 1]) { StripRightEnds(s[..|s| - 1]); }
  }

  lemma {:induction false} StripLeftStarts(s: string)
    ensures var r := StripLeft(s); r == [] || !IsSpace(r[0])
  {
    if s != [] && IsSpace(s[0]) { StripLeftStarts(s[1..]); }
  }

  lemma StripTwice(s: string)
    ensures Strip(Strip(s)) == Strip(s)
  {
    StripLeftStarts(s);
    StripRightKeepsFront(StripLeft(s));
    StripRightEnds(StripLeft(s));
  }

  predicate AllSpace(s: string) {
    forall i :: 0 <= i < |s| ==> IsSpace(s[i])
  }

  lemma {:induction false} StripLeftCuts(s: string) returns (a: string)
    ensures s == a + StripLeft(s) && AllSpace(a)
  {
    if s != [] && IsSpace(s[0]) {
      a := StripLeftCuts(s[1..]);
      assert s == [s[0]] + s[1..];
      a := [s[0]] + a;
    } else {
      a := [];
    }
  }

  lemma {:induction false} StripRightCuts(s: string) returns (b: string)
    ensures s == StripRight(s) + b && AllSpace(b)
  {
    if s != [] && IsSpace(s[|s| - 1]) {
      b := StripRightCuts(s[..|s| - 1]);
      assert s == s[..|s| - 1] + [s[|s| - 1]];
      b := b + [s[|s| - 1]];
    } else {
      b := [];
    }
  }

  /** Stripping takes white space from both ends, and all of it. */
  lemma StripIs(s: string) returns (a: string, b: string)
    ensures s == a + (Strip(s) + b) && AllSpace(a) && AllSpace(b)
    ensures Strip(s) != [] ==> !IsSpace(Strip(s)[0]) && !IsSpace(Strip(s)[|Strip(s)| - 1])
  {
    a := StripLeftCuts(s);
    b := StripRightCuts(StripLeft(s));
    StripLeftStarts(s);
    StripRightKeepsFront(StripLeft(s));
    StripRightEnds(StripLeft(s));
  }
}
