/** The in-memory vector store: rag/mudahurus_rag/vectorstore.py. */
module VectorStore {
  import opened Text
  import opened Embeddings

  datatype Value = Str(s: string) | Num(n: nat)

  type Payload = map<string, Value>

  datatype Point = Point(id: string, vector: Vector, payload: Payload)

  datatype Hit = Hit(id: string, score: real, payload: Payload)

  // ---- point ids ----

  function PointName(tenantId: string, sourceType: string, sourceId: string,
                                  chunkNo: nat): string
  {
    tenantId + (":" + (sourceType + (":" + (sourceId + (":" + Dec(chunkNo))))))
  }

  ghost predicate Injective(f: string -> string) {
    forall x, y :: f(x) == f(y) ==> x == y
  }

  function DeterministicPointId(uuid5: string -> string, tenantId: string, sourceType: string, sourceId: string,
                                  chunkNo: nat): string
  {
    uuid5(PointName(tenantId, sourceType, sourceId, chunkNo))
  }

  lemma {:induction false} FirstColon(a: string, x: string, b: string, y: string)
    requires ':' !in a && ':' !in b && a + (":" + x) == b + (":" + y)
    ensures a == b && x == y
  {
    var s, t := a + (":" + x), b + (":" + y);
    assert s[0] == t[0];
    assert a != [] ==> s[0] == a[0] && a[0] in a;
    assert b != [] ==> t[0] == b[0] && b[0] in b;
    if a == [] {
      assert s[1..] == x && t[1..] == y;
    } else {
      assert s[1..] == a[1..] + (":" + x) && t[1..] == b[1..] + (":" + y);
      FirstColon(a[1..], x, b[1..], y);
      assert a == [a[0]] + a[1..] && b == [b[0]] + b[1..];
    }
  }

  lemma {:induction false} LastColon(a: string, x: string, b: string, y: string)
    requires ':' !in x && ':' !in y && a + (":" + x) == b + (":" + y)
    ensures a == b && x == y
    decreases |x|
  {
    var s, t := a + (":" + x), b + (":" + y);
    var n := |s| - 1;
    assert s[n] == t[n];
    assert x != [] ==> s[n] == x[|x| - 1] && s[n] in x;
    assert y != [] ==> t[n] == y[|y| - 1] && t[n] in y;
    if x == [] {
      assert s[..n] == a && t[..n] == b;
    } else {
      var x', y' := x[..|x| - 1], y[..|y| - 1];
      assert s[..n] == a + (":" + x') && t[..n] == b + (":" + y');
      LastColon(a, x', b, y');
      assert x == x' + [x[|x| - 1]] && y == y' + [y[|y| - 1]];
    }
  }

  /** Names determine their four parts when the tenant and the source type have
      no colon; the source id may have any. */
  lemma PointNameInjective(t1: string, k1: string, s1: string, n1: nat, t2: string, k2: string, s2: string, n2: nat)
    requires ':' !in t1 && ':' !in t2 && ':' !in k1 && ':' !in k2
    requires PointName(t1, k1, s1, n1) == PointName(t2, k2, s2, n2)
    ensures t1 == t2 && k1 == k2 && s1 == s2 && n1 == n2
  {
    var r1, r2 := s1 + (":" + Dec(n1)), s2 + (":" + Dec(n2));
    FirstColon(t1, k1 + (":" + r1), t2, k2 + (":" + r2));
    FirstColon(k1, r1, k2, r2);
    LastColon(s1, Dec(n1), s2, Dec(n2));
    DecInjective(n1, n2);
  }

  /** Exactly which points share a name, colons or not: those with the same number
      whose source type and source id, joined by a colon, are the same text. */
  lemma SharedNameIff(t: string, k1: string, s1: string, n1: nat, k2: string, s2: string, n2: nat)
    ensures PointName(t, k1, s1, n1) == PointName(t, k2, s2, n2) <==> n1 == n2 && k1 + (":" + s1) == k2 + (":" + s2)
  {
    var x1, x2 := t + (":" + (k1 + (":" + s1))), t + (":" + (k2 + (":" + s2)));
    NameEnds(t, k1, s1, n1);
    NameEnds(t, k2, s2, n2);
    hide PointName, Dec;
    if PointName(t, k1, s1, n1) == PointName(t, k2, s2, n2) {
      LastColon(x1, Dec(n1), x2, Dec(n2));
      DecInjective(n1, n2);
      assert x1[|t| + 1..] == k1 + (":" + s1) && x2[|t| + 1..] == k2 + (":" + s2);
    }
  }

  lemma NameEnds(t: string, k: string, s: string, n: nat)
    ensures PointName(t, k, s, n) == t + (":" + (k + (":" + s))) + (":" + Dec(n))
    ensures ':' !in Dec(n)
  {
    assert AllDigits(Dec(n));
    hide Dec;
    Assoc(s, ":", Dec(n));
  }

  /** So a colon may move from the source type to the source id unnoticed. */
  lemma ColonInSourceTypeCollides(t: string, a: string, b: string, c: string, n: nat)
    ensures PointName(t, a + (":" + b), c, n) == PointName(t, a, b + (":" + c), n)
    ensures (a + (":" + b), c) != (a, b + (":" + c))
  {
    SharedNameIff(t, a + (":" + b), c, n, a, b + (":" + c), n);
    Assoc(":", b, ":" + c);
    Assoc(a, ":" + b, ":" + c);
    assert |a + (":" + b)| > |a|;
  }

  // ---- the dictionary of points, in insertion order ----

  datatype Store = Store(order: seq<string>, points: map<string, Point>)

  const EMPTY := Store([], map[])

  ghost predicate WellOrdered(s: Store) {
    (forall id :: id in s.order <==> id in s.points)
    && forall i, j :: 0 <= i < j < |s.order| ==> s.order[i] != s.order[j]
  }

  function Put(s: Store, p: Point): Store {
    Store(if p.id in s.points then s.order else s.order + [p.id], s.points[p.id := p])
  }

  function PutAll(s: Store, ps: seq<Point>): Store
    decreases |ps|
  {
    if ps == [] then s else PutAll(Put(s, ps[0]), ps[1..])
  }

  lemma {:induction false} PutAllConcat(s: Store, ps: seq<Point>, qs: seq<Point>)
    ensures PutAll(s, ps + qs) == PutAll(PutAll(s, ps), qs)
    decreases |ps|
  {
    if ps == [] {
      assert ps + qs == qs;
    } else {
      assert (ps + qs)[1..] == ps[1..] + qs;
      PutAllConcat(Put(s, ps[0]), ps[1..], qs);
    }
  }

  lemma PutLast(s: Store, ps: seq<Point>, i: nat)
    requires i < |ps|
    ensures PutAll(s, ps[..i + 1]) == Put(PutAll(s, ps[..i]), ps[i])
  {
    hide PutAll, Put;
    PutAllConcat(s, ps[..i], [ps[i]]);
    PutOne(PutAll(s, ps[..i]), ps[i]);
    assert ps[..i + 1] == ps[..i] + [ps[i]];
  }

  lemma PutOne(s: Store, p: Point)
    ensures PutAll(s, [p]) == Put(s, p)
  {
    hide Put;
    assert [p][1..] == [];
  }

  function Ids(ps: seq<Point>): set<string> {
    set p | p in ps :: p.id
  }

  /** Point i is the last of its id. */
  predicate LastOfId(ps: seq<Point>, i: nat)
    requires i < |ps|
  {
    forall j :: i < j < |ps| ==> ps[j].id != ps[i].id
  }

  /** The table after these points: all ids, the last point of each, the others as
      before. */
  ghost predicate Updated(before: map<string, Point>, after: map<string, Point>, ps: seq<Point>) {
    && after.Keys == before.Keys + Ids(ps)
    && (forall i :: 0 <= i < |ps| && LastOfId(ps, i) ==> ps[i].id in after && after[ps[i].id] == ps[i])
    && (forall id :: id in before && id !in Ids(ps) ==> id in after && after[id] == before[id])
  }

  lemma NamesAppend(ps: seq<Point>, p: Point)
    ensures Ids(ps + [p]) == Ids(ps) + {p.id}
  {
    assert forall q :: q in ps + [p] <==> q in ps || q == p;
  }

  lemma LastAppend(ps: seq<Point>, p: Point, i: nat)
    requires i < |ps| && LastOfId(ps + [p], i)
    ensures (ps + [p])[i] == ps[i] && ps[i].id != p.id && LastOfId(ps, i)
  {
    var qs := ps + [p];
    assert qs[|ps|] == p;
    assert forall j :: 0 <= j < |ps| ==> qs[j] == ps[j];
  }

  lemma UpdatedOn(before: map<string, Point>, mid: map<string, Point>, ps: seq<Point>, p: Point)
    requires Updated(before, mid, ps)
    ensures Updated(before, mid[p.id := p], ps + [p])
  {
    var after, qs := mid[p.id := p], ps + [p];
    NamesAppend(ps, p);
    hide Ids, LastOfId;
    forall i | 0 <= i < |qs| && LastOfId(qs, i)
      ensures qs[i].id in after && after[qs[i].id] == qs[i]
    {
      if i < |ps| { LastAppend(ps, p, i); }
    }
  }

  lemma PutNone(s: Store)
    ensures PutAll(s, []) == s
  {
  }

  lemma {:induction false} PutAllIs(s: Store, ps: seq<Point>)
    ensures Updated(s.points, PutAll(s, ps).points, ps) && s.order <= PutAll(s, ps).order
    decreases |ps|
  {
    hide PutAll;
    if ps == [] {
      PutNone(s);
    } else {
      var n := |ps| - 1;
      PutAllIs(s, ps[..n]);
      PutLast(s, ps, n);
      assert ps[..n + 1] == ps && ps[..n] + [ps[n]] == ps;
      hide Updated;
      UpdatedOn(s.points, PutAll(s, ps[..n]).points, ps[..n], ps[n]);
    }
  }

  lemma {:induction false} PutAllWellOrdered(s: Store, ps: seq<Point>)
    requires WellOrdered(s)
    ensures WellOrdered(PutAll(s, ps))
    decreases |ps|
  {
    if ps != [] { PutAllWellOrdered(Put(s, ps[0]), ps[1..]); }
  }

  // ---- search ----

  predicate OfTenant(p: Point, tenantId: string) {
    "tenant_id" in p.payload && p.payload["tenant_id"] == Str(tenantId)
  }

  function IdsOf(s: Store, tenantId: string): set<string> {
    set id | id in s.points && OfTenant(s.points[id], tenantId)
  }

  function CountIn(s: Store, tenantId: Option<string>): nat {
    if tenantId.None? then |s.points| else |IdsOf(s, tenantId.value)|
  }

  /** The ids of the tenant among the first n. */
  function FirstIds(s: Store, tenantId: string, n: nat): set<string>
    requires n <= |s.order|
  {
    set id | id in s.order[..n] && id in s.points && OfTenant(s.points[id], tenantId)
  }

  lemma FirstIdsStep(s: Store, tenantId: string, n: nat)
    requires WellOrdered(s) && n < |s.order|
    ensures |FirstIds(s, tenantId, n + 1)| ==
            |FirstIds(s, tenantId, n)| + if OfTenant(s.points[s.order[n]], tenantId) then 1 else 0
  {
    hide OfTenant;
    assert s.order[..n + 1] == s.order[..n] + [s.order[n]];
    assert s.order[n] !in s.order[..n];
    SizeBesides(FirstIds(s, tenantId, n), FirstIds(s, tenantId, n + 1), s.order[n]);
  }

  lemma FirstIdsEnds(s: Store, tenantId: string)
    requires WellOrdered(s)
    ensures FirstIds(s, tenantId, 0) == {} && FirstIds(s, tenantId, |s.order|) == IdsOf(s, tenantId)
  {
    hide OfTenant;
    assert s.order[..|s.order|] == s.order;
  }

  /** Putting a point adds one to its tenant's count when it is new there, and
      takes one from the tenant whose point it replaces. */
  lemma CountAfterPut(s: Store, p: Point, tenantId: string)
    ensures var had := p.id in s.points && OfTenant(s.points[p.id], tenantId);
            CountIn(Put(s, p), Some(tenantId)) ==
            CountIn(s, Some(tenantId)) + (if OfTenant(p, tenantId) then 1 else 0) - (if had then 1 else 0)
    ensures CountIn(Put(s, p), None) == CountIn(s, None) + if p.id in s.points then 0 else 1
  {
    assert Put(s, p).points.Keys == s.points.Keys + {p.id};
    hide OfTenant;
    SizeBesides(IdsOf(s, tenantId), IdsOf(Put(s, p), tenantId), p.id);
  }

  /** The sizes of two sets that differ in x at most. */
  lemma SizeBesides(a: set<string>, b: set<string>, x: string)
    requires forall y :: y != x ==> (y in a <==> y in b)
    ensures |b| == |a| + (if x in b then 1 else 0) - (if x in a then 1 else 0)
  {
    assert a - {x} == b - {x};
    assert |a - {x}| == |a| - (if x in a then 1 else 0);
    assert |b - {x}| == |b| - (if x in b then 1 else 0);
  }

  predicate InScope(p: Point, tenantId: string, sourceTypes: seq<string>) {
    OfTenant(p, tenantId)
    && (sourceTypes == [] || ("source_type" in p.payload && p.payload["source_type"].Str?
                              && p.payload["source_type"].s in sourceTypes))
  }

  function HitOf(sqrt: real -> real, q: Vector, p: Point): Hit {
    Hit(p.id, Cosine(sqrt, q, p.vector), p.payload)
  }

  /** The hits before sorting, in insertion order. */
  function Matches(sqrt: real -> real, ps: seq<Point>, tenantId: string, sourceTypes: seq<string>, q: Vector)
    : seq<Hit>
  {
    if ps == [] then []
    else
      var n := |ps| - 1;
      Matches(sqrt, ps[..n], tenantId, sourceTypes, q)
      + if InScope(ps[n], tenantId, sourceTypes) then [HitOf(sqrt, q, ps[n])] else []
  }

  /** Places h after every hit that scores at least as much. */
  function InsertDesc(hits: seq<Hit>, h: Hit): seq<Hit> {
    if hits == [] then [h]
    else if hits[0].score < h.score then [h] + hits
    else [hits[0]] + InsertDesc(hits[1..], h)
  }

  /** `hits.sort(key=score, reverse=True)`, which keeps the order of ties. */
  function SortDesc(hits: seq<Hit>): seq<Hit> {
    if hits == [] then [] else InsertDesc(SortDesc(hits[..|hits| - 1]), hits[|hits| - 1])
  }

  /** `hits[:k]`, negative k counting from the end. */
  function Take(hits: seq<Hit>, k: int): (r: seq<Hit>)
    ensures r <= hits
  {
    if k >= |hits| then hits
    else if k >= 0 then hits[..k]
    else if |hits| + k >= 0 then hits[..|hits| + k]
    else []
  }

  /** The first k; for a negative k all but the last -k. */
  lemma TakeIs(hits: seq<Hit>, k: int)
    ensures Take(hits, k) <= hits
    ensures k >= 0 ==> |Take(hits, k)| == if k <= |hits| then k else |hits|
    ensures k < 0 ==> |Take(hits, k)| == if -k <= |hits| then |hits| + k else 0
  {
  }

  function Points(s: Store): seq<Point>
    requires forall id :: id in s.order ==> id in s.points
  {
    seq(|s.order|, i requires 0 <= i < |s.order| => s.points[s.order[i]])
  }

  function SearchIn(sqrt: real -> real, ps: seq<Point>, tenantId: string, q: Vector, topK: int,
                    sourceTypes: seq<string>)
    : seq<Hit>
  {
    Take(SortDesc(Matches(sqrt, ps, tenantId, sourceTypes, q)), topK)
  }

  class InMemoryVectorStore {
    var order: seq<string>
    var points: map<string, Point>

    function Contents(): Store reads this { Store(order, points) }

    ghost predicate Valid() reads this { WellOrdered(Contents()) }

    constructor ()
      ensures Valid() && Contents() == EMPTY
    {
      order, points := [], map[];
    }

    method Upsert(ps: seq<Point>) returns (n: nat)
      requires Valid()
      modifies this
      ensures Valid() && Contents() == PutAll(old(Contents()), ps) && n == |ps|
      ensures points.Keys == old(points).Keys + set p | p in ps :: p.id
      ensures forall i :: 0 <= i < |ps| && LastOfId(ps, i) ==> points[ps[i].id] == ps[i]
      ensures forall id :: id in old(points) && id !in (set p | p in ps :: p.id) ==> points[id] == old(points)[id]
      ensures old(order) <= order
    {
      assert ps[..|ps|] == ps;
      for i := 0 to |ps|
        invariant Contents() == PutAll(old(Contents()), ps[..i])
      {
        PutLast(old(Contents()), ps, i);
        if ps[i].id !in points {
          order := order + [ps[i].id];
        }
        points := points[ps[i].id := ps[i]];
      }
      PutAllWellOrdered(old(Contents()), ps);
      PutAllIs(old(Contents()), ps);
      n := |ps|;
    }

    /** All points, or those of one tenant, each counted once. */
    method Count(tenantId: Option<string>) returns (n: nat)
      requires Valid()
      ensures n == CountIn(Contents(), tenantId)
    {
      if tenantId.None? {
        return |points|;
      }
      hide OfTenant, FirstIds, IdsOf;
      n := 0;
      FirstIdsEnds(Contents(), tenantId.value);
      for i := 0 to |order|
        invariant n == |FirstIds(Contents(), tenantId.value, i)|
      {
        FirstIdsStep(Contents(), tenantId.value, i);
        if OfTenant(points[order[i]], tenantId.value) {
          n := n + 1;
        }
      }
    }

    /** None is the ValueError for a missing tenant. */
    method Search(sqrt: real -> real, tenantId: string, vector: Vector, topK: int, sourceTypes: seq<string>)
      returns (r: Option<seq<Hit>>)
      requires Valid()
      ensures r == if tenantId == "" then None
                   else Some(SearchIn(sqrt, Points(Contents()), tenantId, vector, topK, sourceTypes))
    {
      if tenantId == "" {
        return None;
      }
      var hits := [];
      ghost var ps := Points(Contents());
      for i := 0 to |order|
        invariant hits == Matches(sqrt, ps[..i], tenantId, sourceTypes, vector)
      {
        var p := points[order[i]];
        assert p == ps[i] && ps[..i + 1][..i] == ps[..i];
        if InScope(p, tenantId, sourceTypes) {
          hits := hits + [HitOf(sqrt, vector, p)];
        }
      }
      assert ps[..|order|] == ps;
      r := Some(Take(SortDesc(hits), topK));
    }
  }

  // ---- the sort: order, stability, and that these determine it ----

  predicate Descending(hits: seq<Hit>) {
    forall i, j :: 0 <= i < j < |hits| ==> hits[i].score >= hits[j].score
  }

  /** The hits with this score, in order. */
  function WithScore(hits: seq<Hit>, x: real): seq<Hit> {
    if hits == [] then []
    else (if hits[0].score == x then [hits[0]] else []) + WithScore(hits[1..], x)
  }

  lemma {:induction false} WithScoreConcat(a: seq<Hit>, b: seq<Hit>, x: real)
    ensures WithScore(a + b, x) == WithScore(a, x) + WithScore(b, x)
  {
    if a == [] {
      assert a + b == b;
    } else {
      WithScoreConcat(a[1..], b, x);
      WithScoreFirst(a, x);
      WithScoreFirst(a + b, x);
      hide WithScore;
      assert (a + b)[0] == a[0] && (a + b)[1..] == a[1..] + b;
      HitsAssoc(if a[0].score == x then [a[0]] else [], WithScore(a[1..], x), WithScore(b, x));
    }
  }

  lemma WithScoreFirst(a: seq<Hit>, x: real)
    requires a != []
    ensures WithScore(a, x) == (if a[0].score == x then [a[0]] else []) + WithScore(a[1..], x)
  {
  }

  lemma HitsAssoc(a: seq<Hit>, b: seq<Hit>, c: seq<Hit>)
    ensures (a + b) + c == a + (b + c)
  {
  }

  lemma {:induction false} InsertKeepsTies(hits: seq<Hit>, h: Hit, x: real)
    requires Descending(hits)
    ensures WithScore(InsertDesc(hits, h), x) == WithScore(hits + [h], x)
  {
    if hits == [] {
      assert hits + [h] == [h];
    } else if hits[0].score < h.score {
      WithScoreConcat(hits, [h], x);
      assert ([h] + hits)[1..] == hits;
      if h.score == x { NoneWithScore(hits, x); }
    } else {
      var tail := hits[1..];
      InsertKeepsTies(tail, h, x);
      assert hits + [h] == [hits[0]] + (tail + [h]);
      assert (hits + [h])[1..] == tail + [h];
      assert InsertDesc(hits, h)[1..] == InsertDesc(tail, h);
    }
  }

  lemma {:induction false} InsertKeepsOrder(hits: seq<Hit>, h: Hit)
    requires Descending(hits)
    ensures Descending(InsertDesc(hits, h))
  {
    if hits != [] && hits[0].score >= h.score {
      var tail := hits[1..];
      InsertKeepsOrder(tail, h);
      assert hits == [hits[0]] + tail;
      InsertBounded(tail, h, hits[0].score);
      assert InsertDesc(hits, h) == [hits[0]] + InsertDesc(tail, h);
    }
  }

  lemma {:induction false} InsertKeepsAll(hits: seq<Hit>, h: Hit)
    ensures multiset(InsertDesc(hits, h)) == multiset(hits) + multiset{h}
  {
    if hits != [] && hits[0].score >= h.score {
      InsertKeepsAll(hits[1..], h);
      var first, rest := [hits[0]], InsertDesc(hits[1..], h);
      assert hits == first + hits[1..];
      assert multiset(first + rest) == multiset(first) + multiset(rest);
    }
  }

  lemma {:induction false} NoneWithScore(hits: seq<Hit>, x: real)
    requires forall i :: 0 <= i < |hits| ==> hits[i].score < x
    ensures WithScore(hits, x) == []
  {
    if hits != [] { NoneWithScore(hits[1..], x); }
  }

  lemma {:induction false} InsertBounded(hits: seq<Hit>, h: Hit, bound: real)
    requires h.score <= bound && forall i :: 0 <= i < |hits| ==> hits[i].score <= bound
    ensures forall i :: 0 <= i < |InsertDesc(hits, h)| ==> InsertDesc(hits, h)[i].score <= bound
  {
    if hits != [] && hits[0].score >= h.score { InsertBounded(hits[1..], h, bound); }
  }

  /** The sort is descending, loses nothing and keeps the order of ties. */
  lemma {:induction false} SortIsStable(hits: seq<Hit>, x: real)
    ensures Descending(SortDesc(hits)) && multiset(SortDesc(hits)) == multiset(hits)
    ensures WithScore(SortDesc(hits), x) == WithScore(hits, x)
  {
    if hits != [] {
      var n := |hits| - 1;
      var s := SortDesc(hits[..n]);
      SortIsStable(hits[..n], x);
      hide SortDesc, InsertDesc, WithScore, Descending;
      SortStep(hits);
      FrontLast(hits);
      InsertKeepsOrder(s, hits[n]);
      InsertKeepsAll(s, hits[n]);
      LastTies(s, hits[..n], hits[n], x);
    }
  }

  lemma SortStep(hits: seq<Hit>)
    requires hits != []
    ensures SortDesc(hits) == InsertDesc(SortDesc(hits[..|hits| - 1]), hits[|hits| - 1])
  {
    hide InsertDesc;
  }

  lemma FrontLast(hits: seq<Hit>)
    requires hits != []
    ensures hits == hits[..|hits| - 1] + [hits[|hits| - 1]]
  {
  }

  lemma LastTies(s: seq<Hit>, front: seq<Hit>, h: Hit, x: real)
    requires Descending(s) && WithScore(s, x) == WithScore(front, x)
    ensures WithScore(InsertDesc(s, h), x) == WithScore(front + [h], x)
  {
    hide InsertDesc, WithScore, Descending;
    InsertKeepsTies(s, h, x);
    WithScoreConcat(s, [h], x);
    WithScoreConcat(front, [h], x);
  }

  /** There is only one such arrangement. */
  lemma {:induction false} StableSortUnique(a: seq<Hit>, b: seq<Hit>)
    requires Descending(a) && Descending(b)
    requires forall x :: WithScore(a, x) == WithScore(b, x)
    ensures a == b
  {
    var top := if b == [] then 0.0 else b[0].score;
    assert WithScore(a, top) == WithScore(b, top);
    if a != [] {
      var x := a[0].score;
      assert WithScore(a, x) == WithScore(b, x);
      FirstOfScore(b, x);
      var y := b[0].score;
      assert WithScore(a, y) == WithScore(b, y);
      FirstOfScore(a, y);
      assert a[0] == WithScore(a, x)[0] == WithScore(b, x)[0] == b[0];
      forall z ensures WithScore(a[1..], z) == WithScore(b[1..], z) {
        assert WithScore(a, z) == WithScore(b, z);
        var first := if x == z then [a[0]] else [];
        assert WithScore(a, z) == first + WithScore(a[1..], z);
        assert WithScore(b, z) == first + WithScore(b[1..], z);
        assert WithScore(a[1..], z) == WithScore(a, z)[|first|..];
        assert WithScore(b[1..], z) == WithScore(b, z)[|first|..];
      }
      StableSortUnique(a[1..], b[1..]);
      assert a == [a[0]] + a[1..] && b == [b[0]] + b[1..];
    }
  }

  lemma {:induction false} FirstOfScore(b: seq<Hit>, x: real)
    requires Descending(b) && WithScore(b, x) != []
    ensures b != [] && b[0].score >= x
  {
    if b[0].score < x { NoneWithScore(b, x); }
  }

  // ---- main results about search ----

  /** The results for k are a prefix of those for any larger k. */
  lemma SearchPrefix(sqrt: real -> real, ps: seq<Point>, tenantId: string, q: Vector, k: nat, l: nat,
                     sourceTypes: seq<string>)
    requires k <= l
    ensures SearchIn(sqrt, ps, tenantId, q, k, sourceTypes) <= SearchIn(sqrt, ps, tenantId, q, l, sourceTypes)
    ensures |SearchIn(sqrt, ps, tenantId, q, k, sourceTypes)| ==
            var n := |Matches(sqrt, ps, tenantId, sourceTypes, q)|; if k < n then k else n
  {
    hide Matches;
    var ms := Matches(sqrt, ps, tenantId, sourceTypes, q);
    SortIsStable(ms, 0.0);
    assert |multiset(SortDesc(ms))| == |SortDesc(ms)| && |multiset(ms)| == |ms|;
    hide SortDesc;
  }

  /** No match that was left out beats one that was returned. */
  lemma NoBetterOmitted(sqrt: real -> real, ps: seq<Point>, tenantId: string, q: Vector, topK: int,
                       sourceTypes: seq<string>, h: Hit, i: nat)
    requires var ms := Matches(sqrt, ps, tenantId, sourceTypes, q);
             var r := SearchIn(sqrt, ps, tenantId, q, topK, sourceTypes);
             i < |r| && multiset(ms)[h] > multiset(r)[h]
    ensures h.score <= SearchIn(sqrt, ps, tenantId, q, topK, sourceTypes)[i].score
  {
    hide Matches, SortDesc, WithScore, Take;
    var ms := Matches(sqrt, ps, tenantId, sourceTypes, q);
    var s := SortDesc(ms);
    SortIsStable(ms, 0.0);
    var r := Take(s, topK);
    var j := BehindPrefix(s, r, h);
    assert r[i] == s[i];
  }

  lemma BehindPrefix(s: seq<Hit>, r: seq<Hit>, h: Hit) returns (j: nat)
    requires r <= s && multiset(s)[h] > multiset(r)[h]
    ensures |r| <= j < |s| && s[j] == h
  {
    var rest := s[|r|..];
    assert s == r + rest;
    assert multiset(s)[h] == multiset(r)[h] + multiset(rest)[h];
    var k :| 0 <= k < |rest| && rest[k] == h;
    j := |r| + k;
  }

  function AtLeast(hits: seq<Hit>, minScore: real): seq<Hit> {
    if hits == [] then []
    else (if hits[0].score >= minScore then [hits[0]] else []) + AtLeast(hits[1..], minScore)
  }

  lemma {:induction false} NoneAtLeast(hits: seq<Hit>, minScore: real)
    requires forall i :: 0 <= i < |hits| ==> hits[i].score < minScore
    ensures AtLeast(hits, minScore) == []
  {
    if hits != [] { NoneAtLeast(hits[1..], minScore); }
  }

  /** On a descending list the threshold cuts off a tail. */
  lemma {:induction false} ThresholdIsPrefix(hits: seq<Hit>, minScore: real)
    requires Descending(hits)
    ensures var g := AtLeast(hits, minScore);
            g <= hits && (forall i :: 0 <= i < |g| ==> g[i].score >= minScore)
            && (forall i :: |g| <= i < |hits| ==> hits[i].score < minScore)
  {
    if hits != [] {
      if hits[0].score < minScore {
        NoneAtLeast(hits, minScore);
      } else {
        ThresholdIsPrefix(hits[1..], minScore);
        assert hits == [hits[0]] + hits[1..];
      }
    }
  }

  lemma {:induction false} PrefixUnique(hits: seq<Hit>, n: nat, minScore: real)
    requires n <= |hits|
    requires forall i :: 0 <= i < n ==> hits[i].score >= minScore
    requires forall i :: n <= i < |hits| ==> hits[i].score < minScore
    ensures AtLeast(hits, minScore) == hits[..n]
  {
    if n == 0 {
      NoneAtLeast(hits, minScore);
    } else {
      PrefixUnique(hits[1..], n - 1, minScore);
    }
  }

  /** Filtering by the threshold and taking the first k commute. */
  lemma ThresholdCommutes(hits: seq<Hit>, k: nat, minScore: real)
    requires Descending(hits)
    ensures AtLeast(Take(hits, k), minScore) == Take(AtLeast(hits, minScore), k)
  {
    ThresholdIsPrefix(hits, minScore);
    var g, t := AtLeast(hits, minScore), Take(hits, k);
    PrefixUnique(t, |Take(g, k)|, minScore);
  }

  lemma {:induction false} InScopeMatched(sqrt: real -> real, ps: seq<Point>, tenantId: string,
                                          sourceTypes: seq<string>, q: Vector, p: Point)
    requires p in ps && InScope(p, tenantId, sourceTypes)
    ensures HitOf(sqrt, q, p) in Matches(sqrt, ps, tenantId, sourceTypes, q)
  {
    hide InScope, HitOf;
    var n := |ps| - 1;
    if p != ps[n] {
      assert p in ps[..n];
      InScopeMatched(sqrt, ps[..n], tenantId, sourceTypes, q, p);
    }
  }

  lemma {:induction false} MatchedInScope(sqrt: real -> real, ps: seq<Point>, tenantId: string,
                                          sourceTypes: seq<string>, q: Vector, h: Hit)
    returns (p: Point)
    requires h in Matches(sqrt, ps, tenantId, sourceTypes, q)
    ensures p in ps && InScope(p, tenantId, sourceTypes) && h == HitOf(sqrt, q, p)
  {
    hide InScope, HitOf;
    var n := |ps| - 1;
    if h in Matches(sqrt, ps[..n], tenantId, sourceTypes, q) {
      p := MatchedInScope(sqrt, ps[..n], tenantId, sourceTypes, q, h);
    } else {
      p := ps[n];
    }
  }

  /** Every stored point of the tenant, and of one of the wanted source types when
      any are named, is a match with its own id, payload and score... */
  lemma MatchesComplete(sqrt: real -> real, ps: seq<Point>, tenantId: string, sourceTypes: seq<string>, q: Vector,
                        p: Point)
    requires p in ps && "tenant_id" in p.payload && p.payload["tenant_id"] == Str(tenantId)
    requires sourceTypes == []
             || ("source_type" in p.payload && exists t :: t in sourceTypes && p.payload["source_type"] == Str(t))
    ensures Hit(p.id, Cosine(sqrt, q, p.vector), p.payload) in Matches(sqrt, ps, tenantId, sourceTypes, q)
  {
    InScopeMatched(sqrt, ps, tenantId, sourceTypes, q, p);
  }

  /** ... and nothing else is. */
  lemma MatchesSound(sqrt: real -> real, ps: seq<Point>, tenantId: string, sourceTypes: seq<string>, q: Vector, h: Hit)
    returns (p: Point)
    requires h in Matches(sqrt, ps, tenantId, sourceTypes, q)
    ensures p in ps && h == Hit(p.id, Cosine(sqrt, q, p.vector), p.payload)
    ensures "tenant_id" in p.payload && p.payload["tenant_id"] == Str(tenantId)
    ensures sourceTypes == []
            || ("source_type" in p.payload && exists t :: t in sourceTypes && p.payload["source_type"] == Str(t))
  {
    p := MatchedInScope(sqrt, ps, tenantId, sourceTypes, q, h);
    if sourceTypes != [] { assert p.payload["source_type"] == Str(p.payload["source_type"].s); }
  }
}
