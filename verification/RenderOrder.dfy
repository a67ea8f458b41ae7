/** When the iteration order of the map can show in a rendered notification
    (api/internal/enhancements/eh3_notifications.go): what `Flat` means for the
    brace pairs of a template, and which values are harmless. */
module RenderOrder {
  import opened Text
  import opened Notifications

  // ---- matched pairs of braces ----

  /** Opening braces less closing braces. */
  function Depth(s: string): int {
    if s == [] then 0
    else Depth(s[..|s| - 1]) + (if s[|s| - 1] == '{' then 1 else if s[|s| - 1] == '}' then -1 else 0)
  }

  /** No prefix closes more than it opens. */
  ghost predicate NeverBelow(s: string) {
    forall n :: 0 <= n <= |s| ==> Depth(s[..n]) >= 0
  }

  ghost predicate Balanced(s: string) {
    Depth(s) == 0 && NeverBelow(s)
  }

  ghost predicate Matched(b: string, i: int, j: int) {
    0 <= i < j < |b| && b[i] == '{' && b[j] == '}' && Balanced(b[i + 1..j])
  }

  /** A matched pair that contains another one. */
  ghost predicate NestedAt(b: string, i: int, k: int, l: int, j: int) {
    Matched(b, i, j) && Matched(b, k, l) && i < k && l < j
  }

  lemma {:induction false} DepthConcat(a: string, b: string)
    ensures Depth(a + b) == Depth(a) + Depth(b)
    decreases |b|
  {
    if b == [] {
      assert a + b == a;
    } else {
      assert (a + b)[..|a + b| - 1] == a + b[..|b| - 1];
      DepthConcat(a, b[..|b| - 1]);
    }
  }

  lemma {:induction false} DepthPlain(s: string)
    requires BraceFree(s)
    ensures Depth(s) == 0
  {
    if s != [] { DepthPlain(s[..|s| - 1]); }
  }

  lemma NeverBelowPlain(s: string)
    requires BraceFree(s)
    ensures Balanced(s)
  {
    forall n | 0 <= n <= |s|
      ensures Depth(s[..n]) == 0
    {
      DepthPlain(s[..n]);
    }
    assert s[..|s|] == s;
  }

  lemma NeverBelowConcat(a: string, b: string)
    requires Balanced(a) && NeverBelow(b)
    ensures NeverBelow(a + b)
  {
    forall n | 0 <= n <= |a + b|
      ensures Depth((a + b)[..n]) >= 0
    {
      if n <= |a| {
        assert (a + b)[..n] == a[..n];
      } else {
        assert (a + b)[..n] == a + b[..n - |a|];
        DepthConcat(a, b[..n - |a|]);
      }
    }
  }

  lemma BalancedConcat(a: string, b: string)
    requires Balanced(a) && Balanced(b)
    ensures Balanced(a + b)
  {
    DepthConcat(a, b);
    NeverBelowConcat(a, b);
  }

  lemma PlaceholderBalanced(k: string)
    requires BraceFree(k)
    ensures Balanced(Placeholder(k))
  {
    var s := Placeholder(k);
    forall n | 0 <= n <= |s|
      ensures Depth(s[..n]) == if 0 < n < |s| then 1 else 0
    {
      if 0 < n < |s| {
        assert s[..n] == ['{'] + k[..n - 1];
        DepthConcat(['{'], k[..n - 1]);
        DepthPlain(k[..n - 1]);
        assert Depth(['{']) == 1;
      } else if n == |s| {
        assert s[..n] == (['{'] + k) + ['}'];
        DepthConcat(['{'] + k, ['}']);
        DepthConcat(['{'], k);
        DepthPlain(k);
        assert Depth(['{']) == 1 && Depth(['}']) == -1;
      }
    }
    assert s[..|s|] == s;
  }

  /** Pairs keep their place behind any text, and come from nowhere else. */
  lemma MatchedShift(a: string, b: string, i: int, j: int)
    requires |a| <= i
    ensures Matched(a + b, i, j) <==> Matched(b, i - |a|, j - |a|)
  {
    if i < j < |a + b| {
      assert (a + b)[i + 1..j] == b[i - |a| + 1..j - |a|];
    }
  }

  lemma NestedShift(a: string, b: string, i: int, k: int, l: int, j: int)
    requires NestedAt(b, i, k, l, j)
    ensures NestedAt(a + b, |a| + i, |a| + k, |a| + l, |a| + j)
  {
    MatchedShift(a, b, |a| + i, |a| + j);
    MatchedShift(a, b, |a| + k, |a| + l);
  }

  /** A text whose first brace opens, and that closes at all, holds a pair with
      nothing but plain text between. */
  lemma {:induction false} HoleInside(s: string) returns (i: nat)
    requires '}' in s && !CloseFirst(s)
    ensures i < |s| && HoleFirst(s[i..])
  {
    hide HoleFirst, CloseFirst, Plain;
    FirstOpens(s);
    var m := Plain(s);
    var t := s[m + 1..];
    CloseFirstHole(t);
    if CloseFirst(t) {
      i := m;
    } else {
      i := HoleInside(t);
      assert s[m + 1 + i..] == t[i..];
      i := m + 1 + i;
    }
  }

  lemma FirstOpens(s: string)
    requires '}' in s && !CloseFirst(s)
    ensures Plain(s) < |s| && s[Plain(s)] == '{' && '}' in s[Plain(s) + 1..]
    ensures s[Plain(s)..] == ['{'] + s[Plain(s) + 1..]
  {
    hide Plain;
    var m := Plain(s);
    PlainFront(s, m);
    var j :| 0 <= j < |s| && s[j] == '}';
    assert j > m && s[m] == '{';
    hide BraceFree, CloseFirst;
    InTail(s, m + 1, j);
    TailAt(s, m);
  }

  lemma InTail(s: string, m: nat, j: nat)
    requires m <= j < |s|
    ensures s[j] in s[m..]
  {
    assert s[m..][j - m] == s[j];
  }

  lemma TailAt(s: string, m: nat)
    requires m < |s|
    ensures s[m..] == [s[m]] + s[m + 1..]
  {
  }

  lemma PlainFront(s: string, m: nat)
    requires m <= |s| && BraceFree(s[..m])
    ensures forall x :: 0 <= x < m ==> !IsBrace(s[x])
  {
    assert forall x :: 0 <= x < m ==> s[..m][x] == s[x];
  }

  lemma HoleMatched(b: string, i: nat)
    requires i < |b| && HoleFirst(b[i..])
    ensures var j := i + 1 + |HoleName(b[i..])|;
            Matched(b, i, j) && BraceFree(b[i + 1..j])
  {
    var s := b[i..];
    var k := HoleName(s);
    HoleSplit(s);
    assert s[1..1 + |k|] == k && s[1 + |k|] == '}';
    assert b[i + 1..i + 1 + |k|] == k;
    NeverBelowPlain(k);
  }

  lemma CloseFirstSinks(c: string)
    requires CloseFirst(c)
    ensures !NeverBelow(c)
  {
    var m := Plain(c);
    DepthPlain(c[..m]);
    DepthConcat(c[..m], ['}']);
    assert c[..m + 1] == c[..m] + ['}'];
    assert Depth(['}']) == -1;
  }

  lemma PlainContents(b: string, j: int)
    requires 0 < j < |b| && b[0] == '{' && b[j] == '}' && BraceFree(b[1..j])
    ensures HoleFirst(b)
  {
    assert b[1..] == b[1..j] + b[j..];
    PlainConcat(b[1..j], b[j..]);
    assert Plain(b[j..]) == 0;
  }

  /** The contents of a matched pair are plain, or hold another pair. */
  lemma ContentsNest(b: string, j: int) returns (k: int, l: int)
    requires Matched(b, 0, j) && !HoleFirst(b)
    ensures NestedAt(b, 0, k, l, j)
  {
    hide HoleFirst, HoleName, Depth, NeverBelow, Plain, CloseFirst, BraceFree;
    var c := b[1..j];
    if CloseFirst(c) { CloseFirstSinks(c); }
    if '}' !in c { OnlyOpens(c); }
    if BraceFree(c) { PlainContents(b, j); }
    var i := HoleInside(c);
    HoleMatched(c, i);
    k, l := 1 + i, 1 + i + 1 + |HoleName(c[i..])|;
    MatchedInside(b, c, 1, k - 1, l - 1);
  }

  lemma MatchedInside(b: string, c: string, at: nat, i: int, j: int)
    requires at + |c| <= |b| && b[at..at + |c|] == c && Matched(c, i, j)
    ensures Matched(b, at + i, at + j)
  {
    assert b[at + i] == c[i] && b[at + j] == c[j];
    SliceOfSlice(b, at, at + |c|, i + 1, j);
  }

  lemma SliceOfSlice(b: string, at: nat, end: nat, x: nat, y: nat)
    requires at <= end <= |b| && x <= y <= end - at
    ensures b[at..end][x..y] == b[at + x..at + y]
  {
    var c := b[at..end];
    forall k | 0 <= k < y - x
      ensures c[x..y][k] == b[at + x..at + y][k]
    {
    }
  }

  lemma {:induction false} OnlyOpens(s: string)
    requires '}' !in s
    ensures Depth(s) >= 0 && (Depth(s) == 0 ==> BraceFree(s))
  {
    if s != [] {
      OnlyOpens(s[..|s| - 1]);
      assert s == s[..|s| - 1] + [s[|s| - 1]];
    }
  }

  // ---- flat templates are those without nested pairs ----

  lemma {:induction false} NoStrayCloseNeverBelow(t: string)
    requires NoStrayClose(t)
    ensures NeverBelow(t)
    decreases |t|
  {
    if t == [] {
      assert forall n :: 0 <= n <= |t| ==> t[..n] == [];
    } else if HoleFirst(t) {
      var k := HoleName(t);
      HoleSplit(t);
      NoStrayCloseNeverBelow(t[|k| + 2..]);
      PlaceholderBalanced(k);
      NeverBelowConcat(Placeholder(k), t[|k| + 2..]);
    } else {
      NoStrayCloseNeverBelow(t[1..]);
      forall n | 0 <= n <= |t|
        ensures Depth(t[..n]) >= 0
      {
        if n > 0 {
          assert t[..n] == [t[0]] + t[1..][..n - 1];
          DepthConcat([t[0]], t[1..][..n - 1]);
        }
      }
    }
  }

  lemma {:induction false} NoStrayCloseFlat(t: string)
    requires NoStrayClose(t)
    ensures Flat(t)
    decreases |t|
  {
    if t != [] {
      if HoleFirst(t) {
        NoStrayCloseFlat(t[|HoleName(t)| + 2..]);
      } else {
        NoStrayCloseFlat(t[1..]);
      }
    }
  }

  lemma BehindFirst(c: char, t: string, j: nat)
    requires 0 < j <= |t|
    ensures var b := [c] + t;
            b[1..j] == t[..j - 1] && b[j] == t[j - 1] && t[..j] == t[..j - 1] + [b[j]]
  {
    var b := [c] + t;
    assert b[1..] == t;
    assert b[1..j] == b[1..][..j - 1];
  }

  lemma CloseLowers(s: string)
    ensures Depth(s + ['}']) == Depth(s) - 1
  {
    DepthConcat(s, ['}']);
    assert Depth(['}']) == -1;
  }

  lemma NeverClosed(t: string, j: int)
    requires NeverBelow(t)
    ensures !Matched(['{'] + t, 0, j)
  {
    var b := ['{'] + t;
    if 0 < j < |b| && b[j] == '}' {
      BehindFirst('{', t, j);
      CloseLowers(t[..j - 1]);
    }
  }

  lemma PastTheHole(b: string, j: int)
    requires HoleFirst(b) && |HoleName(b)| + 1 < j < |b|
    ensures !Balanced(b[1..j])
  {
    var k, c := HoleName(b), b[1..j];
    HoleSplit(b);
    forall x | 0 <= x < |k| + 1
      ensures c[..|k| + 1][x] == (k + ['}'])[x]
    {
      assert c[..|k| + 1][x] == b[x + 1] == Placeholder(k)[x + 1];
    }
    assert c[..|k| + 1] == k + ['}'];
    DepthPlain(k);
    DepthConcat(k, ['}']);
    assert Depth(['}']) == -1;
  }

  /** The first placeholder's opening brace is matched by its own closing one. */
  lemma HolePartner(b: string, i: int, j: int)
    requires HoleFirst(b) && Matched(b, i, j) && i < |HoleName(b)| + 2
    ensures i == 0 && j == |HoleName(b)| + 1
  {
    hide Balanced;
    var k := HoleName(b);
    HoleSplit(b);
    assert forall x :: 0 <= x < |k| ==> b[x + 1] == k[x];
    assert b[|k| + 1] == '}';
    if j > |k| + 1 { PastTheHole(b, j); }
  }

  lemma {:induction false} FlatPairsPlain(b: string, i: int, j: int)
    requires Flat(b) && Matched(b, i, j)
    ensures BraceFree(b[i + 1..j])
    decreases |b|, 1
  {
    hide Balanced, Plain;
    if HoleFirst(b) {
      var k := HoleName(b);
      var m := |k| + 2;
      HoleSplit(b);
      if i < m {
        HolePartner(b, i, j);
        assert b[1..j] == k;
      } else {
        FlatPairsBehind(Placeholder(k), b[m..], i, j);
      }
    } else {
      var t := b[1..];
      assert b == [b[0]] + t;
      if b[0] == '{' {
        NoStrayCloseNeverBelow(t);
        NoStrayCloseFlat(t);
        NeverClosed(t, j);
      }
      FlatPairsBehind([b[0]], t, i, j);
    }
  }

  lemma {:induction false} FlatPairsBehind(a: string, t: string, i: int, j: int)
    requires a != [] && Flat(t) && Matched(a + t, i, j) && i >= |a|
    ensures BraceFree((a + t)[i + 1..j])
    decreases |a + t|, 0
  {
    hide Balanced, Flat;
    MatchedShift(a, t, i, j);
    FlatPairsPlain(t, i - |a|, j - |a|);
    assert (a + t)[i + 1..j] == t[i - |a| + 1..j - |a|];
  }

  /** A closing brace left over closes at depth 0, or some pair is nested. */
  lemma {:induction false} StrayClose(t: string) returns (n: nat, nested: bool, i: int, k: int, l: int, j: int)
    requires !NoStrayClose(t)
    ensures if nested then NestedAt(t, i, k, l, j) else n < |t| && t[n] == '}' && Balanced(t[..n])
    decreases |t|
  {
    hide Balanced, NestedAt, Plain, HoleName;
    n, nested, i, k, l, j := 0, false, 0, 0, 0, 0;
    if HoleFirst(t) {
      var key := HoleName(t);
      var h, rest := Placeholder(key), t[|key| + 2..];
      HoleSplit(t);
      n, nested, i, k, l, j := StrayClose(rest);
      if nested {
        NestedShift(h, rest, i, k, l, j);
        i, k, l, j := |h| + i, |h| + k, |h| + l, |h| + j;
      } else {
        PlaceholderBalanced(key);
        BalancedConcat(h, rest[..n]);
        assert t[..|h| + n] == h + rest[..n];
        n := |h| + n;
      }
    } else if t[0] == '}' {
      NeverBelowPlain(t[..0]);
    } else {
      var u := t[1..];
      assert t == [t[0]] + u;
      n, nested, i, k, l, j := StrayClose(u);
      if nested {
        NestedShift([t[0]], u, i, k, l, j);
        i, k, l, j := 1 + i, 1 + k, 1 + l, 1 + j;
      } else if t[0] == '{' {
        assert t[1..n + 1] == u[..n];
        nested, i, j := true, 0, n + 1;
        k, l := ContentsNest(t, j);
      } else {
        NeverBelowPlain([t[0]]);
        BalancedConcat([t[0]], u[..n]);
        assert t[..n + 1] == [t[0]] + u[..n];
        n := n + 1;
      }
    }
  }

  lemma {:induction false} NotFlatNests(b: string) returns (i: int, k: int, l: int, j: int)
    requires !Flat(b)
    ensures NestedAt(b, i, k, l, j)
    decreases |b|
  {
    hide Balanced, NestedAt, Plain, HoleName;
    if HoleFirst(b) {
      var key := HoleName(b);
      HoleSplit(b);
      i, k, l, j := NotFlatNests(b[|key| + 2..]);
      NestedShift(Placeholder(key), b[|key| + 2..], i, k, l, j);
      i, k, l, j := |key| + 2 + i, |key| + 2 + k, |key| + 2 + l, |key| + 2 + j;
    } else {
      var t := b[1..];
      assert b == [b[0]] + t;
      if b[0] == '{' {
        var n, nested;
        n, nested, i, k, l, j := StrayClose(t);
        if !nested {
          assert b[1..n + 1] == t[..n];
          i, j := 0, n + 1;
          k, l := ContentsNest(b, j);
          return;
        }
      } else {
        i, k, l, j := NotFlatNests(t);
      }
      NestedShift([b[0]], t, i, k, l, j);
      i, k, l, j := 1 + i, 1 + k, 1 + l, 1 + j;
    }
  }

  lemma PlainPairHoldsNone(b: string, i: int, k: int, l: int, j: int)
    requires 0 <= i < j < |b| && BraceFree(b[i + 1..j])
    ensures !NestedAt(b, i, k, l, j)
  {
    hide Balanced;
    if i < k < j { assert b[i + 1..j][k - i - 1] == b[k]; }
  }

  /** Flat texts are exactly those in which no matched pair of braces contains
      another. */
  lemma FlatIffNoNesting(b: string)
    ensures Flat(b) <==> !exists i, k, l, j :: NestedAt(b, i, k, l, j)
  {
    hide Flat, Balanced;
    if Flat(b) {
      forall i, k, l, j
        ensures !NestedAt(b, i, k, l, j)
      {
        if Matched(b, i, j) {
          FlatPairsPlain(b, i, j);
          PlainPairHoldsNone(b, i, k, l, j);
        }
      }
    } else {
      var i, k, l, j := NotFlatNests(b);
    }
  }

  // ---- which values are harmless ----

  /** All keys and all values but that of `key` are free of braces. */
  ghost predicate CleanBeside(vars: map<string, string>, key: string) {
    key in vars && forall k :: k in vars ==> BraceFree(k) && (k != key ==> BraceFree(vars[k]))
  }

  ghost predicate KeepsOrder(v: string, b: string, vars: map<string, string>, key: string) {
    Flat(b) && CleanBeside(vars, key) && vars[key] == v ==> OrderIndependent(b, vars)
  }

  /** A placeholder that only the value of `key` brings about shows the order. */
  lemma OrdersDiffer(b: string, v: string, key: string, made: string, p: nat)
    requires BraceFree(key) && BraceFree(made) && key != made && made !in HoleNames(b)
    requires var x := Subst(b, map[key := v]); p < |x| && HoleFirst(x[p..]) && HoleName(x[p..]) == made
    ensures !OrderIndependent(b, map[key := v, made := ""])
  {
    hide Subst, HoleFirst, HoleName, HoleNames, BraceFree, RenderInOrder;
    var vars := map[key := v, made := ""];
    var x := Subst(b, map[key := v]);
    RenderOne(b, key, vars);
    KeyLast(b, [key], vars, made);
    AbsentKeyFirst(b, [key], vars, made);
    RemovalShortens(x, made, p);
    assert IsOrderOf([key] + [made], vars) && IsOrderOf([made] + [key], vars);
  }

  lemma RenderOne(b: string, key: string, vars: map<string, string>)
    requires key in vars && BraceFree(key)
    ensures RenderInOrder(b, [key], vars) == Subst(b, map[key := vars[key]])
  {
    ReplaceIsSubst(b, key, vars[key]);
    assert [key][1..] == [];
  }

  lemma {:induction false} LastOpen(v: string) returns (p: nat)
    requires !BraceFree(v) && '}' !in v
    ensures p < |v| && v[p] == '{' && BraceFree(v[p + 1..])
  {
    var n := |v| - 1;
    if v[n] == '{' {
      p := n;
    } else {
      p := LastOpen(v[..n]);
      assert v[p + 1..] == v[..n][p + 1..] + [v[n]];
    }
  }

  /** A value that leaves a brace open is closed by the template. */
  lemma OpenValueDiffers(v: string) returns (b: string, vars: map<string, string>, key: string)
    requires !BraceFree(v) && '}' !in v
    ensures Flat(b) && CleanBeside(vars, key) && vars[key] == v && !OrderIndependent(b, vars)
  {
    hide Flat, HoleNames, Subst, HoleFirst, HoleName, OrderIndependent;
    var p := LastOpen(v);
    var q := v[p + 1..];
    var made := q + "z";
    key := q + "zz";
    b := Placeholder(key) + "z}";
    vars := map[key := v, made := ""];
    HoleThenClose(key, v);
    CompletedHole(v, p, q);
    OrdersDiffer(b, v, key, made, p);
  }

  lemma CompletedHole(v: string, p: nat, q: string)
    requires p < |v| && v[p] == '{' && q == v[p + 1..] && BraceFree(q)
    ensures var x := v + "z}"; HoleFirst(x[p..]) && HoleName(x[p..]) == q + "z"
  {
    var x := v + "z}";
    assert x[p..] == Placeholder(q + "z") + [];
    HoleConcat(q + "z", []);
  }

  lemma HoleThenClose(key: string, v: string)
    requires BraceFree(key)
    ensures var b := Placeholder(key) + "z}";
            Flat(b) && HoleNames(b) == {key} && Subst(b, map[key := v]) == v + "z}"
  {
    HoleConcat(key, "z}");
    PlainBrace();
    SubstAbsent("z}", map[key := v]);
    hide Flat, HoleNames;
    SubstHole(key, "z}", map[key := v]);
    FlatHole(key, "z}");
    HoleNamesBehind(key, "z}");
  }

  lemma HoleNamesBehind(key: string, rest: string)
    requires BraceFree(key)
    ensures HoleNames(Placeholder(key) + rest) == {key} + HoleNames(rest)
  {
    HoleConcat(key, rest);
  }

  lemma PlainBrace()
    ensures Flat("z}") && HoleNames("z}") == {} && !HoleFirst("z}")
  {
    assert "z}"[1..] == "}" && "}"[1..] == [];
  }

  /** A value that closes first closes what the template left open. */
  lemma CloseValueDiffers(v: string) returns (b: string, vars: map<string, string>, key: string)
    requires CloseFirst(v)
    ensures Flat(b) && CleanBeside(vars, key) && vars[key] == v && !OrderIndependent(b, vars)
  {
    hide Flat, HoleNames, Subst, HoleFirst, HoleName, OrderIndependent;
    var q := v[..Plain(v)];
    var made := "z" + q;
    key := "zz" + q;
    b := "{z" + Placeholder(key);
    vars := map[key := v, made := ""];
    OpenBeforeHole(key, v);
    var x := "{z" + v;
    assert x == Placeholder(made) + v[Plain(v) + 1..];
    HoleConcat(made, v[Plain(v) + 1..]);
    assert x[0..] == x;
    OrdersDiffer(b, v, key, made, 0);
  }

  lemma OpenBeforeHole(key: string, v: string)
    requires BraceFree(key)
    ensures var b := "{z" + Placeholder(key);
            Flat(b) && HoleNames(b) == {key} && Subst(b, map[key := v]) == "{z" + v
  {
    var h, vars := Placeholder(key), map[key := v];
    var b, t := "{z" + h, ['z'] + h;
    LoneOpen(h);
    assert b == ['{'] + t && h + [] == h && v + [] == v;
    HoleNamesBehind(key, []);
    NoStrayHole(key);
    hide Flat, HoleNames, NoStrayClose, HoleFirst, HoleName, Plain;
    SubstHole(key, [], vars);
    SubstPlain('z', h, vars);
    SubstOpen(t, vars);
    Assoc(['{'], ['z'], v);
  }

  lemma NoStrayHole(key: string)
    requires BraceFree(key)
    ensures NoStrayClose(Placeholder(key))
  {
    HoleConcat(key, []);
    assert Placeholder(key) + [] == Placeholder(key);
  }

  /** An opening brace that another one follows. */
  lemma LoneOpen(h: string)
    requires h != [] && h[0] == '{'
    ensures var b := "{z" + h;
            && !HoleFirst(b) && HoleNames(b) == HoleNames(h) && (NoStrayClose(h) ==> Flat(b))
  {
    var b, t := "{z" + h, ['z'] + h;
    assert b[1..] == t && t[1..] == h;
    PlainConcat(['z'], h);
  }

  /** A value that holds a placeholder is expanded in one order only. */
  lemma HoleValueDiffers(v: string) returns (b: string, vars: map<string, string>, key: string)
    requires '}' in v && !CloseFirst(v)
    ensures Flat(b) && CleanBeside(vars, key) && vars[key] == v && !OrderIndependent(b, vars)
  {
    var p := HoleInside(v);
    var made := HoleName(v[p..]);
    key := made + "z";
    b := Placeholder(key);
    vars := map[key := v, made := ""];
    HoleConcat(key, []);
    assert b + [] == b;
    SubstHole(key, [], map[key := v]);
    assert v + [] == v;
    OrdersDiffer(b, v, key, made, p);
  }

  /** A value leaves every flat template independent of the iteration order,
      beside every choice of other brace-free variables, exactly when it is free
      of braces itself. */
  lemma ValueKeepsOrderIffBraceFree(v: string)
    ensures BraceFree(v) <==> forall b, vars, key :: KeepsOrder(v, b, vars, key)
  {
    if BraceFree(v) {
      forall b, vars, key
        ensures KeepsOrder(v, b, vars, key)
      {
        if Flat(b) && CleanBeside(vars, key) && vars[key] == v {
          assert Clean(vars);
          OrderIndependentIffFlat(b);
        }
      }
    } else {
      var b, vars, key;
      if '}' !in v {
        b, vars, key := OpenValueDiffers(v);
      } else if CloseFirst(v) {
        b, vars, key := CloseValueDiffers(v);
      } else {
        b, vars, key := HoleValueDiffers(v);
      }
      assert !KeepsOrder(v, b, vars, key);
    }
  }

  // ---- which keys are harmless ----

  /** All values and all keys but `key` are free of braces. */
  ghost predicate CleanButKey(vars: map<string, string>, key: string) {
    key in vars && forall k :: k in vars ==> BraceFree(vars[k]) && (k != key ==> BraceFree(k))
  }

  ghost predicate KeyKeepsOrder(key: string, b: string, vars: map<string, string>) {
    Flat(b) && CleanButKey(vars, key) ==> OrderIndependent(b, vars)
  }

  lemma NestedExtends(a: string, b: string, i: int, k: int, l: int, j: int)
    requires NestedAt(a, i, k, l, j)
    ensures NestedAt(a + b, i, k, l, j)
  {
    hide Balanced;
    assert (a + b)[i + 1..j] == a[i + 1..j];
    assert (a + b)[k + 1..l] == a[k + 1..l];
  }

  /** What is part of a flat text is flat. */
  lemma FlatPart(a: string, b: string, c: string)
    requires Flat(a + (b + c))
    ensures Flat(b)
  {
    hide Flat, NestedAt;
    if !Flat(b) {
      var i, k, l, j := NotFlatNests(b);
      NestedExtends(b, c, i, k, l, j);
      NestedShift(a, b + c, i, k, l, j);
      FlatIffNoNesting(a + (b + c));
      assert false;
    }
  }

  /** A placeholder that is not flat occurs in no flat text. */
  lemma {:induction false} ReplacesNothing(b: string, key: string, value: string)
    requires Flat(b) && !Flat(Placeholder(key))
    ensures ReplaceAll(b, key, value) == b
  {
    hide Flat;
    if b != [] {
      var h := Placeholder(key);
      if HasPrefix(b, h) {
        assert b == [] + (h + b[|h|..]);
        FlatPart([], h, b[|h|..]);
      }
      assert b == [b[0]] + (b[1..] + []);
      FlatPart([b[0]], b[1..], []);
      ReplacesNothing(b[1..], key, value);
    }
  }

  function Without(order: seq<string>, key: string): (rest: seq<string>)
    ensures forall k :: k in rest <==> k in order && k != key
  {
    if order == [] then []
    else (if order[0] == key then [] else [order[0]]) + Without(order[1..], key)
  }

  lemma {:induction false} WithoutDistinct(order: seq<string>, key: string)
    requires Distinct(order)
    ensures Distinct(Without(order, key))
  {
    if order != [] {
      var rest := order[1..];
      assert forall i, j :: 0 <= i < j < |rest| ==> rest[i] != rest[j] by {
        assert forall i :: 0 <= i < |rest| ==> rest[i] == order[i + 1];
      }
      WithoutDistinct(rest, key);
      assert order[0] !in rest && order[0] !in Without(rest, key);
    }
  }

  lemma {:induction false} SkipKey(b: string, order: seq<string>, vars: map<string, string>, key: string)
    requires Flat(b) && CleanButKey(vars, key) && !Flat(Placeholder(key)) && forall k :: k in order ==> k in vars
    ensures RenderInOrder(b, order, vars) == RenderInOrder(b, Without(order, key), vars - {key})
    decreases |order|
  {
    hide Flat, Placeholder;
    if order != [] {
      var k := order[0];
      var rest := Without(order[1..], key);
      if k == key {
        ReplacesNothing(b, key, vars[key]);
        SkipKey(b, order[1..], vars, key);
        assert Without(order, key) == rest;
      } else {
        var c := ReplaceAll(b, k, vars[k]);
        ReplaceIsSubst(b, k, vars[k]);
        FlatStaysFlat(b, map[k := vars[k]]);
        SkipKey(c, order[1..], vars, key);
        assert ([k] + rest)[1..] == rest;
      }
    }
  }

  /** Such a key is passed over in every order. */
  lemma NestedKeyKeepsOrder(key: string, b: string, vars: map<string, string>)
    requires !Flat(Placeholder(key))
    ensures KeyKeepsOrder(key, b, vars)
  {
    hide Flat, RenderInOrder, Subst, Placeholder;
    if Flat(b) && CleanButKey(vars, key) {
      var others := vars - {key};
      forall order | IsOrderOf(order, vars)
        ensures RenderInOrder(b, order, vars) == Subst(b, others)
      {
        SkipKey(b, order, vars, key);
        WithoutDistinct(order, key);
        FlatRendersAtOnce(b, Without(order, key), others);
      }
    }
  }

  lemma ReplaceWhole(key: string, value: string)
    ensures ReplaceAll(Placeholder(key), key, value) == value
  {
    var h := Placeholder(key);
    assert h[|h|..] == [] && h[..|h|] == h;
  }

  lemma {:induction false} TooShortToReplace(b: string, key: string, value: string)
    requires |b| < |key| + 2
    ensures ReplaceAll(b, key, value) == b
  {
    if b != [] { TooShortToReplace(b[1..], key, value); }
  }

  /** A key with braces whose own placeholder is a flat template: a name inside
      its braces is replaced in one order only. */
  lemma FlatKeyDiffers(key: string) returns (vars: map<string, string>)
    requires !BraceFree(key) && Flat(Placeholder(key))
    ensures CleanButKey(vars, key) && !OrderIndependent(Placeholder(key), vars)
  {
    hide Flat, HoleFirst, HoleName, Subst, RenderInOrder, HoleNames, ReplaceAll;
    var b := Placeholder(key);
    OpensFirst(key);
    var p := HoleInside(b);
    var name := HoleName(b[p..]);
    var long := Repeat('x', |key| + 2);
    vars := map[key := long, name := ""];
    RemovalShortens(b, name, p);
    PlainHasNoHoles(long);
    TwoKeys(b, key, name, vars);
    TwoKeys(b, name, key, vars);
    ReplaceWhole(key, long);
    ReplaceIsSubst(b, name, "");
    ReplaceIsSubst(long, name, "");
    SubstAbsent(long, map[name := ""]);
    TooShortToReplace(Subst(b, map[name := ""]), key, long);
    assert IsOrderOf([key, name], vars) && IsOrderOf([name, key], vars);
  }

  lemma OpensFirst(key: string)
    ensures var b := Placeholder(key); '}' in b && !CloseFirst(b)
  {
    var b := Placeholder(key);
    assert b[|b| - 1] == '}';
  }

  lemma {:induction false} PlainHasNoHoles(s: string)
    requires BraceFree(s)
    ensures HoleNames(s) == {}
  {
    if s != [] { PlainHasNoHoles(s[1..]); }
  }

  lemma TwoKeys(b: string, k1: string, k2: string, vars: map<string, string>)
    requires k1 in vars && k2 in vars
    ensures RenderInOrder(b, [k1, k2], vars) == ReplaceAll(ReplaceAll(b, k1, vars[k1]), k2, vars[k2])
  {
    hide ReplaceAll;
    var c := ReplaceAll(b, k1, vars[k1]);
    assert [k1, k2][1..] == [k2] && [k2][1..] == [];
    assert RenderInOrder(c, [k2], vars) == ReplaceAll(c, k2, vars[k2]);
  }

  /** A key leaves every flat template independent of the iteration order, beside
      every choice of brace-free values and other keys, exactly when it is free of
      braces, or its own placeholder nests braces and so is never found. */
  lemma KeyKeepsOrderIff(key: string)
    ensures BraceFree(key) || !Flat(Placeholder(key)) <==> forall b, vars :: KeyKeepsOrder(key, b, vars)
  {
    hide Flat, Placeholder;
    if BraceFree(key) {
      forall b, vars
        ensures KeyKeepsOrder(key, b, vars)
      {
        if Flat(b) && CleanButKey(vars, key) {
          assert Clean(vars);
          OrderIndependentIffFlat(b);
        }
      }
    } else if !Flat(Placeholder(key)) {
      forall b, vars
        ensures KeyKeepsOrder(key, b, vars)
      {
        NestedKeyKeepsOrder(key, b, vars);
      }
    } else {
      var vars := FlatKeyDiffers(key);
      assert !KeyKeepsOrder(key, Placeholder(key), vars);
    }
  }
}
