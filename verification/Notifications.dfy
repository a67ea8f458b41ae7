/** Template rendering of api/internal/enhancements/eh3_notifications.go: the
    placeholders are replaced one key at a time, in whatever order the map is
    iterated. */
module Notifications {
  import opened Text

  predicate IsBrace(c: char) {
    c == '{' || c == '}'
  }

  predicate BraceFree(s: string) {
    forall i :: 0 <= i < |s| ==> !IsBrace(s[i])
  }

  function Placeholder(key: string): string {
    "{" + key + "}"
  }

  /** `strings.ReplaceAll(body, "{" + key + "}", value)` */
  function ReplaceAll(body: string, key: string, value: string): string {
    if body == [] then []
    else if HasPrefix(body, Placeholder(key)) then value + ReplaceAll(body[|key| + 2..], key, value)
    else [body[0]] + ReplaceAll(body[1..], key, value)
  }

  function OrderConfirmed(): string {
    "Pesanan anda " + Placeholder("order_id") + " telah diterima. Jumlah RM" + Placeholder("total") + "."
  }

  function PaymentReminder(): string {
    "Peringatan: sila buat " + "pembayaran untuk pesanan " + Placeholder("order_id") + " sebelum "
    + Placeholder("expiry") + "."
  }

  function Shipped(): string {
    "Pesanan " + Placeholder("order_id") + " telah dihantar. No. penjejakan: " + Placeholder("tracking_no") + "."
  }

  function Templates(): map<string, string> {
    map["order_confirmed" := OrderConfirmed(), "payment_reminder" := PaymentReminder(), "shipped" := Shipped()]
  }

  function BodyOf(template: string): string {
    if template in Templates() then Templates()[template] else template
  }

  // ---- placeholders of a text ----

  /** Number of characters before the first brace. */
  function Plain(s: string): (n: nat)
    ensures n <= |s| && BraceFree(s[..n])
    ensures n < |s| ==> IsBrace(s[n])
  {
    if s == [] || IsBrace(s[0]) then 0 else 1 + Plain(s[1..])
  }

  /** The text starts with `{`, brace-free characters and `}`. */
  predicate HoleFirst(s: string) {
    s != [] && s[0] == '{' && Plain(s[1..]) < |s| - 1 && s[1 + Plain(s[1..])] == '}'
  }

  function HoleName(s: string): (k: string)
    requires HoleFirst(s)
    ensures BraceFree(k) && |k| + 2 <= |s|
  {
    s[1..][..Plain(s[1..])]
  }

  /** One pass over the text, replacing every known placeholder at once. */
  function Subst(body: string, vars: map<string, string>): string
    decreases |body|
  {
    if body == [] then []
    else if HoleFirst(body) then
      var k := HoleName(body);
      (if k in vars then vars[k] else Placeholder(k)) + Subst(body[|k| + 2..], vars)
    else [body[0]] + Subst(body[1..], vars)
  }

  /** Replacing in one iteration order, given as a list of keys. */
  function RenderInOrder(body: string, order: seq<string>, vars: map<string, string>): string
    requires forall k :: k in order ==> k in vars
    decreases |order|
  {
    if order == [] then body
    else RenderInOrder(ReplaceAll(body, order[0], vars[order[0]]), order[1..], vars)
  }

  ghost predicate IsOrderOf(order: seq<string>, vars: map<string, string>) {
    (forall k :: k in order <==> k in vars) && forall i, j :: 0 <= i < j < |order| ==> order[i] != order[j]
  }

  predicate Clean(vars: map<string, string>) {
    forall k :: k in vars ==> BraceFree(k) && BraceFree(vars[k])
  }

  // ---- templates whose brace pairs are not nested ----

  /** Skipping placeholders, no closing brace is left over. */
  predicate NoStrayClose(s: string)
    decreases |s|
  {
    if s == [] then true
    else if HoleFirst(s) then NoStrayClose(s[|HoleName(s)| + 2..])
    else s[0] != '}' && NoStrayClose(s[1..])
  }

  /** Skipping placeholders, no opening brace is left over before a closing one:
      exactly the texts in which no matched pair of braces contains another. */
  predicate Flat(s: string)
    decreases |s|
  {
    if s == [] then true
    else if HoleFirst(s) then Flat(s[|HoleName(s)| + 2..])
    else if s[0] == '{' then NoStrayClose(s[1..])
    else Flat(s[1..])
  }

  // ---- basic facts ----

  lemma {:induction false} PlainConcat(a: string, b: string)
    requires BraceFree(a)
    ensures Plain(a + b) == |a| + Plain(b)
  {
    if a == [] {
      assert a + b == b;
    } else {
      assert (a + b)[1..] == a[1..] + b;
      PlainConcat(a[1..], b);
    }
  }

  /** A placeholder in front is recognised, whatever follows. */
  lemma HoleConcat(k: string, rest: string)
    requires BraceFree(k)
    ensures var s := Placeholder(k) + rest;
            HoleFirst(s) && HoleName(s) == k && s[|k| + 2..] == rest
  {
    var s := Placeholder(k) + rest;
    var t := "}" + rest;
    assert s[1..] == k + t;
    PlainConcat(k, t);
    assert t[0] == '}';
  }

  lemma HoleSplit(s: string)
    requires HoleFirst(s)
    ensures var k := HoleName(s); s == Placeholder(k) + s[|k| + 2..]
  {
  }

  /** A brace-free key is found in front exactly when it names the first hole. */
  lemma PlaceholderFirst(s: string, k: string)
    requires BraceFree(k)
    ensures HasPrefix(s, Placeholder(k)) <==> HoleFirst(s) && HoleName(s) == k
  {
    if HasPrefix(s, Placeholder(k)) {
      assert s == Placeholder(k) + s[|k| + 2..];
      HoleConcat(k, s[|k| + 2..]);
    }
    if HoleFirst(s) { HoleSplit(s); }
  }

  lemma SubstPlain(c: char, t: string, vars: map<string, string>)
    requires c != '{'
    ensures Subst([c] + t, vars) == [c] + Subst(t, vars)
  {
    assert ([c] + t)[1..] == t;
  }

  lemma {:induction false} SubstText(t: string, rest: string, vars: map<string, string>)
    requires BraceFree(t)
    ensures Subst(t + rest, vars) == t + Subst(rest, vars)
  {
    if t == [] {
      assert t + rest == rest;
    } else {
      hide Subst;
      SubstText(t[1..], rest, vars);
      SubstPlain(t[0], t[1..] + rest, vars);
      Assoc([t[0]], t[1..], rest);
      Assoc([t[0]], t[1..], Subst(rest, vars));
      assert [t[0]] + t[1..] == t;
    }
  }

  /** Replacing a placeholder that is not in front goes character by character. */
  lemma {:induction false} ReplaceText(t: string, rest: string, key: string, value: string)
    requires BraceFree(t)
    ensures ReplaceAll(t + rest, key, value) == t + ReplaceAll(rest, key, value)
  {
    if t == [] {
      assert t + rest == rest;
    } else {
      assert (t + rest)[1..] == t[1..] + rest;
      assert (t + rest)[0] == t[0];
      assert !HasPrefix(t + rest, Placeholder(key)) by { assert Placeholder(key)[0] == '{'; }
      ReplaceText(t[1..], rest, key, value);
    }
  }

  /** One call of ReplaceAll is the one-pass substitution of one key. */
  lemma {:induction false} ReplaceIsSubst(body: string, key: string, value: string)
    requires BraceFree(key)
    ensures ReplaceAll(body, key, value) == Subst(body, map[key := value])
    decreases |body|
  {
    if body != [] {
      PlaceholderFirst(body, key);
      if HoleFirst(body) {
        var k := HoleName(body);
        var rest := body[|k| + 2..];
        ReplaceIsSubst(rest, key, value);
        if k != key {
          HoleSplit(body);
          ReplaceHole(k, rest, key, value);
        }
      } else {
        ReplaceIsSubst(body[1..], key, value);
      }
    }
  }

  lemma ReplaceSkips(c: char, t: string, key: string, value: string)
    requires !HasPrefix([c] + t, Placeholder(key))
    ensures ReplaceAll([c] + t, key, value) == [c] + ReplaceAll(t, key, value)
  {
    assert ([c] + t)[1..] == t;
  }

  lemma PlaceholderText(k: string, rest: string)
    ensures Placeholder(k) + rest == ['{'] + (k + (['}'] + rest))
  {
  }

  lemma ReplaceHole(k: string, rest: string, key: string, value: string)
    requires BraceFree(k) && BraceFree(key) && k != key
    ensures ReplaceAll(Placeholder(k) + rest, key, value) == Placeholder(k) + ReplaceAll(rest, key, value)
  {
    hide ReplaceAll, HoleFirst, HoleName;
    var s := Placeholder(k) + rest;
    HoleConcat(k, rest);
    PlaceholderFirst(s, key);
    var t := ['}'] + rest;
    PlaceholderText(k, rest);
    ReplaceSkips('{', k + t, key, value);
    ReplaceText(k, t, key, value);
    assert !HasPrefix(t, Placeholder(key)) by { assert Placeholder(key)[0] == '{'; }
    ReplaceSkips('}', rest, key, value);
  }

  // ---- replacing in two rounds ----

  /** No opening brace left over becomes, after the first round, the start of a
      placeholder of the second round. */
  predicate Safe(s: string, m1: map<string, string>, m2: map<string, string>)
    decreases |s|
  {
    if s == [] then true
    else if HoleFirst(s) then Safe(s[|HoleName(s)| + 2..], m1, m2)
    else if s[0] == '{' then
      var t := "{" + Subst(s[1..], m1);
      !(HoleFirst(t) && HoleName(t) in m2) && Safe(s[1..], m1, m2)
    else Safe(s[1..], m1, m2)
  }

  lemma SubstHole(k: string, rest: string, vars: map<string, string>)
    requires BraceFree(k)
    ensures Subst(Placeholder(k) + rest, vars) == (if k in vars then vars[k] else Placeholder(k)) + Subst(rest, vars)
  {
    HoleConcat(k, rest);
  }

  lemma SubstUnknown(k: string, rest: string, vars: map<string, string>)
    requires BraceFree(k) && k !in vars
    ensures Subst(Placeholder(k) + rest, vars) == ['{'] + Subst(k + (['}'] + rest), vars)
  {
    hide Subst;
    SubstHole(k, rest, vars);
    SubstText(k, ['}'] + rest, vars);
    SubstPlain('}', rest, vars);
    var x := Subst(rest, vars);
    assert Placeholder(k) + x == ['{'] + (k + (['}'] + x));
  }

  /** An opening brace that starts no known placeholder is passed over. */
  lemma SubstOpen(t: string, vars: map<string, string>)
    requires var s := ['{'] + t; !(HoleFirst(s) && HoleName(s) in vars)
    ensures Subst(['{'] + t, vars) == ['{'] + Subst(t, vars)
  {
    var s := ['{'] + t;
    assert s[1..] == t;
    if HoleFirst(s) {
      HoleSplit(s);
      UnknownOpen(t, HoleName(s), s[|HoleName(s)| + 2..], vars);
    }
  }

  lemma UnknownOpen(t: string, k: string, rest: string, vars: map<string, string>)
    requires BraceFree(k) && k !in vars && ['{'] + t == Placeholder(k) + rest
    ensures Subst(['{'] + t, vars) == ['{'] + Subst(t, vars)
  {
    hide Subst, HoleFirst, HoleName;
    SubstUnknown(k, rest, vars);
    PlaceholderCut(k, rest);
    assert (['{'] + t)[1..] == t;
  }

  lemma PlaceholderCut(k: string, rest: string)
    ensures (Placeholder(k) + rest)[1..] == k + (['}'] + rest)
  {
  }

  lemma {:induction false} TwoRounds(b: string, m1: map<string, string>, m2: map<string, string>)
    requires Clean(m1) && m1.Keys !! m2.Keys && Safe(b, m1, m2)
    ensures Subst(Subst(b, m1), m2) == Subst(b, m1 + m2)
    decreases |b|
  {
    if b != [] {
      if HoleFirst(b) {
        var k := HoleName(b);
        var rest := b[|k| + 2..];
        TwoRounds(rest, m1, m2);
        if k in m1 {
          SubstText(m1[k], Subst(rest, m1), m2);
        } else {
          SubstHole(k, Subst(rest, m1), m2);
        }
      } else {
        var t := b[1..];
        TwoRounds(t, m1, m2);
        if b[0] == '{' {
          SubstOpen(Subst(t, m1), m2);
        } else {
          SubstPlain(b[0], Subst(t, m1), m2);
        }
      }
    }
  }

  // ---- flat templates: one order is as good as another ----

  lemma {:induction false} CloseStaysMatched(t: string, vars: map<string, string>)
    requires Clean(vars) && NoStrayClose(t)
    ensures NoStrayClose(Subst(t, vars))
    ensures !HoleFirst(['{'] + Subst(t, vars))
    decreases |t|
  {
    if t == [] {
      assert (['{'] + [])[1..] == [];
    } else if HoleFirst(t) {
      var k := HoleName(t);
      var rest := t[|k| + 2..];
      CloseStaysMatched(rest, vars);
      assert Subst(t, vars) == (if k in vars then vars[k] else Placeholder(k)) + Subst(rest, vars);
      hide Subst, HoleFirst, HoleName, NoStrayClose;
      if k in vars {
        CloseAfterText(vars[k], Subst(rest, vars));
      } else {
        CloseAfterHole(k, Subst(rest, vars));
      }
    } else {
      CloseStaysMatched(t[1..], vars);
      assert Subst(t, vars) == [t[0]] + Subst(t[1..], vars) && t[0] != '}';
      hide Subst, HoleFirst, HoleName, NoStrayClose;
      if t[0] == '{' {
        CloseAfterOpen(Subst(t[1..], vars));
      } else {
        CloseAfterText([t[0]], Subst(t[1..], vars));
      }
    }
  }

  lemma CloseAfterOpen(rest: string)
    requires NoStrayClose(rest) && !HoleFirst(['{'] + rest)
    ensures NoStrayClose(['{'] + rest) && !HoleFirst(['{'] + (['{'] + rest))
  {
    assert (['{'] + rest)[1..] == rest;
    assert (['{'] + (['{'] + rest))[1..] == ['{'] + rest;
  }

  lemma CloseAfterHole(k: string, rest: string)
    requires BraceFree(k) && NoStrayClose(rest)
    ensures NoStrayClose(Placeholder(k) + rest) && !HoleFirst(['{'] + (Placeholder(k) + rest))
  {
    HoleConcat(k, rest);
    assert (['{'] + (Placeholder(k) + rest))[1..] == Placeholder(k) + rest;
  }

  lemma {:induction false} CloseAfterText(v: string, rest: string)
    requires BraceFree(v) && NoStrayClose(rest) && !HoleFirst(['{'] + rest)
    ensures NoStrayClose(v + rest) && !HoleFirst(['{'] + (v + rest))
  {
    if v == [] {
      assert v + rest == rest;
    } else {
      CloseAfterText(v[1..], rest);
      assert (v + rest)[1..] == v[1..] + rest;
      assert (['{'] + (v + rest))[1..] == v + rest;
      assert (['{'] + rest)[1..] == rest;
      PlainConcat(v, rest);
    }
  }

  lemma {:induction false} FlatAfterText(v: string, rest: string)
    requires BraceFree(v) && Flat(rest)
    ensures Flat(v + rest)
  {
    if v == [] {
      assert v + rest == rest;
    } else {
      FlatAfterText(v[1..], rest);
      assert (v + rest)[1..] == v[1..] + rest;
    }
  }

  lemma {:induction false} FlatStaysFlat(b: string, vars: map<string, string>)
    requires Clean(vars) && Flat(b)
    ensures Flat(Subst(b, vars))
    decreases |b|
  {
    var c := Subst(b, vars);
    if b == [] {
    } else if HoleFirst(b) {
      var k := HoleName(b);
      var rest := b[|k| + 2..];
      FlatStaysFlat(rest, vars);
      if k in vars {
        FlatAfterText(vars[k], Subst(rest, vars));
      } else {
        HoleConcat(k, Subst(rest, vars));
      }
    } else if b[0] == '{' {
      CloseStaysMatched(b[1..], vars);
      assert c == ['{'] + Subst(b[1..], vars);
      assert c[1..] == Subst(b[1..], vars);
    } else {
      FlatStaysFlat(b[1..], vars);
      assert c == [b[0]] + Subst(b[1..], vars);
      assert c[1..] == Subst(b[1..], vars);
    }
  }

  lemma {:induction false} NoStrayCloseIsSafe(t: string, m1: map<string, string>, m2: map<string, string>)
    requires Clean(m1) && NoStrayClose(t)
    ensures Safe(t, m1, m2)
    decreases |t|
  {
    if t == [] {
    } else if HoleFirst(t) {
      NoStrayCloseIsSafe(t[|HoleName(t)| + 2..], m1, m2);
    } else {
      NoStrayCloseIsSafe(t[1..], m1, m2);
      CloseStaysMatched(t[1..], m1);
    }
  }

  lemma {:induction false} FlatIsSafe(b: string, m1: map<string, string>, m2: map<string, string>)
    requires Clean(m1) && Flat(b)
    ensures Safe(b, m1, m2)
    decreases |b|
  {
    if b == [] {
    } else if HoleFirst(b) {
      FlatIsSafe(b[|HoleName(b)| + 2..], m1, m2);
    } else if b[0] == '{' {
      NoStrayCloseIsSafe(b[1..], m1, m2);
      CloseStaysMatched(b[1..], m1);
    } else {
      FlatIsSafe(b[1..], m1, m2);
    }
  }

  function Restrict(vars: map<string, string>, order: seq<string>): map<string, string> {
    map k | k in order && k in vars :: vars[k]
  }

  ghost predicate Distinct(order: seq<string>) {
    forall i, j :: 0 <= i < j < |order| ==> order[i] != order[j]
  }

  lemma RestrictStep(vars: map<string, string>, order: seq<string>)
    requires order != [] && Distinct(order) && order[0] in vars
    ensures Restrict(vars, order) == map[order[0] := vars[order[0]]] + Restrict(vars, order[1..])
    ensures order[0] !in Restrict(vars, order[1..])
    ensures Distinct(order[1..])
  {
    assert order == [order[0]] + order[1..];
  }

  /** For a flat template every order gives the simultaneous substitution. */
  lemma {:induction false} FlatOrder(b: string, order: seq<string>, vars: map<string, string>)
    requires Clean(vars) && Flat(b) && Distinct(order) && forall k :: k in order ==> k in vars
    ensures RenderInOrder(b, order, vars) == Subst(b, Restrict(vars, order))
    decreases |order|
  {
    if order == [] {
      SubstNothing(b);
    } else {
      var m1, m2 := map[order[0] := vars[order[0]]], Restrict(vars, order[1..]);
      RestrictStep(vars, order);
      ReplaceIsSubst(b, order[0], vars[order[0]]);
      FlatStaysFlat(b, m1);
      FlatOrder(Subst(b, m1), order[1..], vars);
      FlatIsSafe(b, m1, m2);
      TwoRounds(b, m1, m2);
    }
  }

  lemma {:induction false} SubstNothing(b: string)
    ensures Subst(b, map[]) == b
    decreases |b|
  {
    if b != [] {
      if HoleFirst(b) {
        SubstNothing(b[|HoleName(b)| + 2..]);
        HoleSplit(b);
      } else {
        SubstNothing(b[1..]);
      }
    }
  }

  // ---- nested templates: some values make two orders differ ----

  /** The names of all placeholders of a text. */
  function HoleNames(s: string): set<string>
    decreases |s|
  {
    if s == [] then {}
    else if HoleFirst(s) then {HoleName(s)} + HoleNames(s[|HoleName(s)| + 2..])
    else HoleNames(s[1..])
  }

  lemma {:induction false} HoleNamesShort(s: string, k: string)
    requires k in HoleNames(s)
    ensures BraceFree(k) && |k| < |s|
    decreases |s|
  {
    if HoleFirst(s) {
      if k != HoleName(s) { HoleNamesShort(s[|HoleName(s)| + 2..], k); }
    } else {
      HoleNamesShort(s[1..], k);
    }
  }

  lemma {:induction false} SubstAbsent(s: string, vars: map<string, string>)
    requires HoleNames(s) !! vars.Keys
    ensures Subst(s, vars) == s
    decreases |s|
  {
    if s != [] {
      if HoleFirst(s) {
        SubstAbsent(s[|HoleName(s)| + 2..], vars);
        HoleSplit(s);
      } else {
        SubstAbsent(s[1..], vars);
      }
    }
  }

  /** A placeholder with a long name stands at position p. */
  predicate LongHoleAt(c: string, p: nat, n: nat) {
    p < |c| && HoleFirst(c[p..]) && |HoleName(c[p..])| >= n
  }

  predicate HasLongHole(c: string, n: nat) {
    exists p: nat :: p < |c| && LongHoleAt(c, p, n)
  }

  lemma LongHoleShift(v: string, c: string, n: nat)
    requires HasLongHole(c, n)
    ensures HasLongHole(v + c, n)
  {
    var p: nat :| p < |c| && LongHoleAt(c, p, n);
    assert (v + c)[|v| + p..] == c[p..];
    assert LongHoleAt(v + c, |v| + p, n);
  }

  /** All values long, so that a placeholder made from a value is new. */
  predicate LongValues(vars: map<string, string>, n: nat) {
    forall k :: k in vars ==> BraceFree(k) && BraceFree(vars[k]) && |vars[k]| >= n
  }

  /** A closing brace is the first brace. */
  predicate CloseFirst(t: string) {
    Plain(t) < |t| && t[Plain(t)] == '}'
  }

  lemma CloseFirstConcat(v: string, t: string)
    requires BraceFree(v)
    ensures CloseFirst(v + t) <==> CloseFirst(t)
    ensures Plain(v + t) == |v| + Plain(t)
  {
    PlainConcat(v, t);
  }

  lemma CloseFirstHole(t: string)
    ensures HoleFirst(['{'] + t) <==> CloseFirst(t)
    ensures CloseFirst(t) ==> |HoleName(['{'] + t)| == Plain(t)
  {
    assert (['{'] + t)[1..] == t;
  }

  lemma LongHoleFirst(t: string, n: nat)
    requires CloseFirst(t) && Plain(t) >= n
    ensures HasLongHole(['{'] + t, n)
  {
    CloseFirstHole(t);
    var c := ['{'] + t;
    assert c[0..] == c;
    assert LongHoleAt(c, 0, n);
  }

  /** After the substitution the text, or the text with one more opening brace,
      has a placeholder made from a value - unless it had it before. */
  lemma {:induction false} StrayCloseMakesHole(t: string, vars: map<string, string>, n: nat)
    requires !NoStrayClose(t) && HoleNames(t) <= vars.Keys && LongValues(vars, n)
    ensures var d := Subst(t, vars);
            HasLongHole(d, n) || (CloseFirst(d) && (Plain(d) >= n || CloseFirst(t)))
    decreases |t|
  {
    hide HasLongHole, CloseFirst;
    var d := Subst(t, vars);
    if HoleFirst(t) {
      var k := HoleName(t);
      var rest := t[|k| + 2..];
      var e := Subst(rest, vars);
      StrayCloseMakesHole(rest, vars, n);
      assert d == vars[k] + e;
      CloseFirstConcat(vars[k], e);
      if HasLongHole(e, n) { LongHoleShift(vars[k], e, n); }
    } else if t[0] == '}' {
      assert CloseFirst(t) && CloseFirst(d) by { FirstClose(t); FirstClose(d); }
    } else {
      var u := t[1..];
      var e := Subst(u, vars);
      StrayCloseMakesHole(u, vars, n);
      assert t == [t[0]] + u && d == [t[0]] + e;
      if HasLongHole(e, n) {
        LongHoleShift([t[0]], e, n);
      } else if t[0] == '{' {
        CloseFirstHole(u);
        LongHoleFirst(e, n);
      } else {
        CloseFirstConcat([t[0]], u);
        CloseFirstConcat([t[0]], e);
      }
    }
  }

  lemma FirstClose(t: string)
    requires t != [] && t[0] == '}'
    ensures CloseFirst(t)
  {
  }

  lemma {:induction false} NestingMakesHole(b: string, vars: map<string, string>, n: nat)
    requires !Flat(b) && HoleNames(b) <= vars.Keys && LongValues(vars, n)
    ensures HasLongHole(Subst(b, vars), n)
    decreases |b|
  {
    hide HasLongHole, CloseFirst;
    var c := Subst(b, vars);
    if HoleFirst(b) {
      var k := HoleName(b);
      var rest := b[|k| + 2..];
      NestingMakesHole(rest, vars, n);
      LongHoleShift(vars[k], Subst(rest, vars), n);
    } else {
      var u := b[1..];
      var d := Subst(u, vars);
      assert b == [b[0]] + u && c == [b[0]] + d;
      if b[0] == '{' {
        StrayCloseMakesHole(u, vars, n);
        CloseFirstHole(u);
        if HasLongHole(d, n) { LongHoleShift([b[0]], d, n); } else { LongHoleFirst(d, n); }
      } else {
        NestingMakesHole(u, vars, n);
        LongHoleShift([b[0]], d, n);
      }
    }
  }

  /** Removing a placeholder that occurs makes the text shorter. */
  lemma {:induction false} RemovalShortens(c: string, key: string, p: nat)
    ensures |Subst(c, map[key := ""])| <= |c|
    ensures p < |c| && HoleFirst(c[p..]) && HoleName(c[p..]) == key ==> |Subst(c, map[key := ""])| < |c|
    decreases |c|
  {
    if c != [] {
      if HoleFirst(c) {
        var k := HoleName(c);
        var m := |k| + 2;
        RemovalShortens(c[m..], key, if p < m then 0 else p - m);
        if m <= p < |c| {
          assert c[m..][p - m..] == c[p..];
        } else if 0 < p < |c| {
          assert c[p] != '{' by { HoleSplit(c); }
          assert c[p..][0] == c[p];
        }
        assert c[0..] == c;
      } else {
        RemovalShortens(c[1..], key, if p == 0 then 0 else p - 1);
        if 0 < p < |c| { assert c[1..][p - 1..] == c[p..]; }
        assert c[0..] == c;
      }
    }
  }

  /** With long values a first round never completes a placeholder whose name is
      short, so rounds compose even for nested templates. */
  lemma {:induction false} LongIsSafe(b: string, m1: map<string, string>, m2: map<string, string>, n: nat)
    requires LongValues(m1, n) && forall k :: k in m2 ==> |k| < n
    ensures Safe(b, m1, m2)
    decreases |b|
  {
    if b == [] {
    } else if HoleFirst(b) {
      LongIsSafe(b[|HoleName(b)| + 2..], m1, m2, n);
    } else {
      LongIsSafe(b[1..], m1, m2, n);
      if b[0] == '{' {
        var d := Subst(b[1..], m1);
        NewHoleIsLong(b[1..], m1, n);
        CloseFirstHole(d);
        CloseFirstHole(b[1..]);
        assert b == ['{'] + b[1..];
      }
    }
  }

  lemma {:induction false} NewHoleIsLong(t: string, vars: map<string, string>, n: nat)
    requires LongValues(vars, n)
    ensures var d := Subst(t, vars);
            CloseFirst(d) && Plain(d) < n ==> CloseFirst(t)
    decreases |t|
  {
    if t == [] {
    } else if HoleFirst(t) {
      var k := HoleName(t);
      var rest := t[|k| + 2..];
      if k in vars {
        PlainConcat(vars[k], Subst(rest, vars));
      } else {
        assert Subst(t, vars)[0] == '{';
      }
    } else {
      var d := Subst(t, vars);
      assert d == [t[0]] + Subst(t[1..], vars);
      assert d[1..] == Subst(t[1..], vars);
      if !IsBrace(t[0]) { NewHoleIsLong(t[1..], vars, n); }
    }
  }

  lemma {:induction false} LongOrder(b: string, order: seq<string>, vars: map<string, string>, n: nat)
    requires Distinct(order) && forall k :: k in order ==> k in vars && |k| < n
    requires LongValues(Restrict(vars, order), n)
    ensures RenderInOrder(b, order, vars) == Subst(b, Restrict(vars, order))
    decreases |order|
  {
    if order == [] {
      SubstNothing(b);
    } else {
      var m1, m2 := map[order[0] := vars[order[0]]], Restrict(vars, order[1..]);
      RestrictStep(vars, order);
      assert order[0] in Restrict(vars, order);
      assert forall k :: k in m2 ==> k in Restrict(vars, order) && m2[k] == Restrict(vars, order)[k];
      ReplaceIsSubst(b, order[0], vars[order[0]]);
      LongOrder(Subst(b, m1), order[1..], vars, n);
      LongIsSafe(b, m1, m2, n);
      TwoRounds(b, m1, m2);
    }
  }

  /** Some order of a finite set of keys. */
  lemma {:induction false} OrderExists(keys: set<string>) returns (order: seq<string>)
    ensures Distinct(order) && forall k :: k in order <==> k in keys
  {
    if keys == {} {
      order := [];
    } else {
      var k :| k in keys;
      var rest := OrderExists(keys - {k});
      order := [k] + rest;
    }
  }

  lemma {:induction false} OrderConcat(b: string, o1: seq<string>, o2: seq<string>, vars: map<string, string>)
    requires forall k :: k in o1 + o2 ==> k in vars
    requires forall k :: k in o1 ==> k in vars
    requires forall k :: k in o2 ==> k in vars
    ensures RenderInOrder(b, o1 + o2, vars) == RenderInOrder(RenderInOrder(b, o1, vars), o2, vars)
    decreases |o1|
  {
    if o1 == [] {
      assert o1 + o2 == o2;
    } else {
      assert (o1 + o2)[1..] == o1[1..] + o2;
      OrderConcat(ReplaceAll(b, o1[0], vars[o1[0]]), o1[1..], o2, vars);
    }
  }

  /** Changing a key that is not in the order changes nothing. */
  lemma {:induction false} OrderFrame(b: string, order: seq<string>, v1: map<string, string>, v2: map<string, string>)
    requires forall k :: k in order ==> k in v1 && k in v2 && v1[k] == v2[k]
    ensures RenderInOrder(b, order, v1) == RenderInOrder(b, order, v2)
    decreases |order|
  {
    if order != [] { OrderFrame(ReplaceAll(b, order[0], v1[order[0]]), order[1..], v1, v2); }
  }

  lemma KeyLast(b: string, order: seq<string>, vars: map<string, string>, key: string)
    requires key in vars && BraceFree(key) && forall k :: k in order ==> k in vars
    ensures RenderInOrder(b, order + [key], vars) == Subst(RenderInOrder(b, order, vars), map[key := vars[key]])
  {
    OrderConcat(b, order, [key], vars);
    ReplaceIsSubst(RenderInOrder(b, order, vars), key, vars[key]);
  }

  lemma AbsentKeyFirst(b: string, order: seq<string>, vars: map<string, string>, key: string)
    requires key in vars && BraceFree(key) && key !in HoleNames(b) && forall k :: k in order ==> k in vars
    ensures RenderInOrder(b, [key] + order, vars) == RenderInOrder(b, order, vars)
  {
    assert ([key] + order)[1..] == order;
    ReplaceIsSubst(b, key, vars[key]);
    SubstAbsent(b, map[key := vars[key]]);
  }

  /** Long values for all placeholders of a nested template, rendered in some
      order, leave a placeholder whose name is longer than the template. */
  lemma LongRendering(b: string, n: nat)
    returns (vars: map<string, string>, order: seq<string>, key: string, p: nat)
    requires !Flat(b) && n == |b| + 1
    ensures Clean(vars) && IsOrderOf(order, vars) && vars.Keys == HoleNames(b)
    ensures var c := RenderInOrder(b, order, vars);
            p < |c| && HoleFirst(c[p..]) && HoleName(c[p..]) == key && |key| >= n
  {
    vars := map k | k in HoleNames(b) :: Repeat('x', n);
    forall k | k in vars ensures BraceFree(k) && |k| < n { HoleNamesShort(b, k); }
    NestingMakesHole(b, vars, n);
    order := OrderExists(vars.Keys);
    assert Restrict(vars, order) == vars;
    LongOrder(b, order, vars, n);
    p :| p < |Subst(b, vars)| && LongHoleAt(Subst(b, vars), p, n);
    key := HoleName(Subst(b, vars)[p..]);
  }

  /** Every nested template has brace-free variables and two iteration orders
      that render it differently. */
  lemma NestedOrdersDiffer(b: string)
    returns (vars: map<string, string>, o1: seq<string>, o2: seq<string>)
    requires !Flat(b)
    ensures Clean(vars) && IsOrderOf(o1, vars) && IsOrderOf(o2, vars)
    ensures RenderInOrder(b, o1, vars) != RenderInOrder(b, o2, vars)
  {
    hide RenderInOrder, HoleFirst, HoleName, Flat, HoleNames;
    var m, order, key, p := LongRendering(b, |b| + 1);
    if key in HoleNames(b) { HoleNamesShort(b, key); assert false; }
    vars := m[key := ""];
    o1, o2 := order + [key], [key] + order;
    OrderFrame(b, order, m, vars);
    KeyLast(b, order, vars, key);
    RemovalShortens(RenderInOrder(b, order, m), key, p);
    AbsentKeyFirst(b, order, vars, key);
  }

  // ---- main results ----

  /** All iteration orders give the same text. */
  ghost predicate OrderIndependent(b: string, vars: map<string, string>) {
    forall o1, o2 :: IsOrderOf(o1, vars) && IsOrderOf(o2, vars)
        ==> RenderInOrder(b, o1, vars) == RenderInOrder(b, o2, vars)
  }

  lemma FlatRendersAtOnce(b: string, order: seq<string>, vars: map<string, string>)
    requires Flat(b) && Clean(vars) && IsOrderOf(order, vars)
    ensures RenderInOrder(b, order, vars) == Subst(b, vars)
  {
    assert Restrict(vars, order) == vars;
    FlatOrder(b, order, vars);
  }

  /** Rendering is independent of the map's iteration order for all brace-free
      variables exactly when no pair of braces of the template contains another. */
  lemma OrderIndependentIffFlat(b: string)
    ensures Flat(b) <==> forall vars :: Clean(vars) ==> OrderIndependent(b, vars)
  {
    if Flat(b) {
      forall vars | Clean(vars) ensures OrderIndependent(b, vars) {
        forall o1, o2 | IsOrderOf(o1, vars) && IsOrderOf(o2, vars)
          ensures RenderInOrder(b, o1, vars) == RenderInOrder(b, o2, vars)
        {
          FlatRendersAtOnce(b, o1, vars);
          FlatRendersAtOnce(b, o2, vars);
        }
      }
    } else {
      var vars, o1, o2 := NestedOrdersDiffer(b);
      assert !OrderIndependent(b, vars);
    }
  }

  /** `for k, v := range vars`: the next key is any key not yet visited. */
  method Render(template: string, vars: map<string, string>) returns (body: string, ghost order: seq<string>)
    ensures IsOrderOf(order, vars) && body == RenderInOrder(BodyOf(template), order, vars)
    ensures Flat(BodyOf(template)) && Clean(vars) ==> body == Subst(BodyOf(template), vars)
  {
    body := if template in Templates() then Templates()[template] else template;
    order := [];
    var left := vars.Keys;
    while left != {}
      invariant left <= vars.Keys && Distinct(order)
      invariant forall k :: k in order <==> k in vars && k !in left
      invariant body == RenderInOrder(BodyOf(template), order, vars)
      decreases left
    {
      var k :| k in left;
      OrderConcat(BodyOf(template), order, [k], vars);
      body := ReplaceAll(body, k, vars[k]);
      order := order + [k];
      left := left - {k};
    }
    if Flat(BodyOf(template)) && Clean(vars) { FlatRendersAtOnce(BodyOf(template), order, vars); }
  }

  lemma FlatHole(k: string, rest: string)
    requires BraceFree(k) && Flat(rest)
    ensures Flat(Placeholder(k) + rest)
  {
    HoleConcat(k, rest);
  }

  lemma FlatEmpty()
    ensures Flat([])
  {
  }

  lemma HolesAssoc(a: string, h1: string, b: string, h2: string, c: string)
    ensures a + (h1 + (b + (h2 + c))) == a + h1 + b + h2 + c
  {
  }

  lemma TwoHolesFlat(a: string, k1: string, b: string, k2: string, c: string)
    requires BraceFree(a) && BraceFree(k1) && BraceFree(b) && BraceFree(k2) && BraceFree(c)
    ensures Flat(a + Placeholder(k1) + b + Placeholder(k2) + c)
  {
    hide Flat, BraceFree, Placeholder;
    FlatEmpty();
    assert c + [] == c;
    FlatAfterText(c, []);
    FlatHole(k2, c);
    FlatAfterText(b, Placeholder(k2) + c);
    FlatHole(k1, b + (Placeholder(k2) + c));
    FlatAfterText(a, Placeholder(k1) + (b + (Placeholder(k2) + c)));
    HolesAssoc(a, Placeholder(k1), b, Placeholder(k2), c);
  }

  lemma OrderConfirmedFlat()
    ensures Flat(OrderConfirmed())
  {
    TwoHolesFlat("Pesanan anda ", "order_id", " telah diterima. Jumlah RM", "total", ".");
  }

  lemma PaymentReminderFlat()
    ensures Flat(PaymentReminder())
  {
    var a, b := "Peringatan: sila buat ", "pembayaran untuk pesanan ";
    TwoHolesFlat(a + b, "order_id", " sebelum ", "expiry", ".");
  }

  lemma ShippedFlat()
    ensures Flat(Shipped())
  {
    TwoHolesFlat("Pesanan ", "order_id", " telah dihantar. No. penjejakan: ", "tracking_no", ".");
  }

  /** The built-in templates meet the condition. */
  lemma TemplatesFlat(t: string)
    requires t in Templates()
    ensures Flat(Templates()[t])
  {
    hide OrderConfirmed, PaymentReminder, Shipped, Flat;
    OrderConfirmedFlat();
    PaymentReminderFlat();
    ShippedFlat();
  }

  // ---- what the built-in templates say ----

  lemma TwoHolesSubst(a: string, k1: string, b: string, k2: string, c: string, vars: map<string, string>)
    requires BraceFree(a) && BraceFree(k1) && BraceFree(b) && BraceFree(k2) && BraceFree(c)
    requires k1 in vars && k2 in vars
    ensures Subst(a + Placeholder(k1) + b + Placeholder(k2) + c, vars) == a + vars[k1] + b + vars[k2] + c
  {
    hide BraceFree, Placeholder;
    assert c + [] == c && Subst([], vars) == [];
    hide Subst;
    SubstText(c, [], vars);
    SubstHole(k2, c, vars);
    SubstText(b, Placeholder(k2) + c, vars);
    SubstHole(k1, b + (Placeholder(k2) + c), vars);
    SubstText(a, Placeholder(k1) + (b + (Placeholder(k2) + c)), vars);
    HolesAssoc(a, Placeholder(k1), b, Placeholder(k2), c);
    HolesAssoc(a, vars[k1], b, vars[k2], c);
  }

  lemma BodyTexts()
    ensures BodyOf("order_confirmed") == OrderConfirmed() && BodyOf("payment_reminder") == PaymentReminder()
    ensures BodyOf("shipped") == Shipped()
  {
    hide OrderConfirmed, PaymentReminder, Shipped;
    assert "order_confirmed"[0] == 'o' && "payment_reminder"[0] == 'p' && "shipped"[0] == 's';
  }

  /** The three messages, rendered in any order of the variables, and any other
      text as its own template. */
  lemma OrderConfirmedSays(id: string, total: string, order: seq<string>)
    requires BraceFree(id) && BraceFree(total) && IsOrderOf(order, map["order_id" := id, "total" := total])
    ensures RenderInOrder(BodyOf("order_confirmed"), order, map["order_id" := id, "total" := total]) ==
            "Pesanan anda " + id + " telah diterima. Jumlah RM" + total + "."
  {
    var vars := map["order_id" := id, "total" := total];
    BodyTexts();
    OrderConfirmedFlat();
    assert "order_id" != "total" by { assert "order_id"[0] == 'o' && "total"[0] == 't'; }
    ConfirmedNames();
    hide BodyOf, Flat, Subst, RenderInOrder, Placeholder;
    FlatRendersAtOnce(OrderConfirmed(), order, vars);
    TwoHolesSubst("Pesanan anda ", "order_id", " telah diterima. Jumlah RM", "total", ".", vars);
  }

  lemma ConfirmedNames()
    ensures BraceFree("order_id") && BraceFree("total") && BraceFree("Pesanan anda ") && BraceFree(".")
    ensures BraceFree(" telah diterima. Jumlah RM")
  {
  }

  lemma PaymentReminderSays(id: string, expiry: string, order: seq<string>)
    requires BraceFree(id) && BraceFree(expiry) && IsOrderOf(order, map["order_id" := id, "expiry" := expiry])
    ensures RenderInOrder(BodyOf("payment_reminder"), order, map["order_id" := id, "expiry" := expiry]) ==
            "Peringatan: sila buat pembayaran untuk pesanan " + id + " sebelum " + expiry + "."
  {
    var vars := map["order_id" := id, "expiry" := expiry];
    BodyTexts();
    PaymentReminderFlat();
    assert "order_id" != "expiry" by { assert "order_id"[0] == 'o' && "expiry"[0] == 'e'; }
    ReminderNames();
    hide BodyOf, Flat, Subst, RenderInOrder, Placeholder;
    FlatRendersAtOnce(PaymentReminder(), order, vars);
    TwoHolesSubst("Peringatan: sila buat " + "pembayaran untuk pesanan ", "order_id", " sebelum ", "expiry", ".", vars);
  }

  lemma ReminderNames()
    ensures BraceFree("order_id") && BraceFree("expiry") && BraceFree(" sebelum ") && BraceFree(".")
    ensures BraceFree("Peringatan: sila buat " + "pembayaran untuk pesanan ")
    ensures "Peringatan: sila buat " + "pembayaran untuk pesanan " == "Peringatan: sila buat pembayaran untuk pesanan "
  {
    PlainJoin("Peringatan: sila buat ", "pembayaran untuk pesanan ");
    ReminderFront();
  }

  lemma ReminderFront()
    ensures "Peringatan: sila buat " + "pembayaran untuk pesanan " == "Peringatan: sila buat pembayaran untuk pesanan "
  {
  }

  lemma PlainJoin(a: string, b: string)
    requires BraceFree(a) && BraceFree(b)
    ensures BraceFree(a + b)
  {
  }

  lemma ShippedSays(id: string, tracking: string, order: seq<string>)
    requires BraceFree(id) && BraceFree(tracking) && IsOrderOf(order, map["order_id" := id, "tracking_no" := tracking])
    ensures RenderInOrder(BodyOf("shipped"), order, map["order_id" := id, "tracking_no" := tracking]) ==
            "Pesanan " + id + " telah dihantar. No. penjejakan: " + tracking + "."
  {
    var vars := map["order_id" := id, "tracking_no" := tracking];
    BodyTexts();
    ShippedFlat();
    assert "order_id" != "tracking_no" by { assert "order_id"[0] == 'o' && "tracking_no"[0] == 't'; }
    ShippedNames();
    hide BodyOf, Flat, Subst, RenderInOrder, Placeholder;
    FlatRendersAtOnce(Shipped(), order, vars);
    TwoHolesSubst("Pesanan ", "order_id", " telah dihantar. No. penjejakan: ", "tracking_no", ".", vars);
  }

  lemma ShippedNames()
    ensures BraceFree("order_id") && BraceFree("tracking_no") && BraceFree("Pesanan ") && BraceFree(".")
    ensures BraceFree(" telah dihantar. No. penjejakan: ")
  {
  }

  lemma OwnBody(template: string)
    ensures template !in {"order_confirmed", "payment_reminder", "shipped"} ==> BodyOf(template) == template
  {
    hide OrderConfirmed, PaymentReminder, Shipped;
  }
}
