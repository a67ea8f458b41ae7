/** The ingestion pipeline: rag/mudahurus_rag/ingestion/pipeline.py. The embedder
    is a function from a text to its vector, uuid5 a function from a name to its
    id; `extract_for_tenant` is the list of documents it returns. */
module Ingestion {
  import opened Text
  import opened Embeddings
  import opened Chunking
  import opened VectorStore

  datatype Document = Document(tenantId: string, sourceType: string, sourceId: string, text: string, payload: Payload)

  datatype Pipeline = Pipeline(embed: string -> Vector, uuid5: string -> string)

  function ChunksOfDoc(d: Document): seq<Chunk> {
    Chunks(d.text, 180, 30)
  }

  function PointId(pl: Pipeline, d: Document, chunkNo: nat): string {
    DeterministicPointId(pl.uuid5, d.tenantId, d.sourceType, d.sourceId, chunkNo)
  }

  /** The document's own payload wins over the fixed fields. */
  function PointOf(pl: Pipeline, d: Document, c: Chunk): Point {
    Point(PointId(pl, d, c.chunkNo), pl.embed(c.text),
          map["tenant_id" := Str(d.tenantId), "source_type" := Str(d.sourceType), "source_id" := Str(d.sourceId),
              "chunk_no" := Num(c.chunkNo), "text" := Str(c.text)] + d.payload)
  }

  function PointsOfChunks(pl: Pipeline, d: Document, cs: seq<Chunk>): (ps: seq<Point>)
    ensures |ps| == |cs| && forall i :: 0 <= i < |cs| ==> ps[i] == PointOf(pl, d, cs[i])
  {
    if cs == [] then [] else PointsOfChunks(pl, d, cs[..|cs| - 1]) + [PointOf(pl, d, cs[|cs| - 1])]
  }

  function PointsOfDoc(pl: Pipeline, d: Document): seq<Point> {
    PointsOfChunks(pl, d, ChunksOfDoc(d))
  }

  /** The stored tenant is the document's own exactly when the document's payload
      does not say otherwise; search filters by the stored one. */
  lemma TenantOfPoints(pl: Pipeline, d: Document, i: nat)
    requires i < |PointsOfDoc(pl, d)|
    ensures InScope(PointsOfDoc(pl, d)[i], d.tenantId, []) <==>
            ("tenant_id" in d.payload ==> d.payload["tenant_id"] == Str(d.tenantId))
  {
    var c := ChunksOfDoc(d)[i];
    assert PointsOfDoc(pl, d)[i] == PointOf(pl, d, c);
    hide Chunks, DeterministicPointId;
  }

  /** What point i of a document carries: its id, the embedding of its text, and
      as payload the five fixed fields unless the document's own payload has them.
      The text is the whole of a document of at most 180 words, and otherwise 180
      words from word 150 * i on. */
  lemma PointCarries(pl: Pipeline, d: Document, i: nat) returns (text: string)
    requires i < |PointsOfDoc(pl, d)|
    ensures var p, own := PointsOfDoc(pl, d)[i], d.payload;
            && p.id == pl.uuid5(d.tenantId + (":" + (d.sourceType + (":" + (d.sourceId + (":" + Dec(i)))))))
            && p.vector == pl.embed(text)
            && p.payload.Keys == {"tenant_id", "source_type", "source_id", "chunk_no", "text"} + own.Keys
            && (forall key :: key in own ==> p.payload[key] == own[key])
            && ("tenant_id" !in own ==> p.payload["tenant_id"] == Str(d.tenantId))
            && ("source_type" !in own ==> p.payload["source_type"] == Str(d.sourceType))
            && ("source_id" !in own ==> p.payload["source_id"] == Str(d.sourceId))
            && ("chunk_no" !in own ==> p.payload["chunk_no"] == Num(i))
            && ("text" !in own ==> p.payload["text"] == Str(text))
    ensures var words := Words(d.text);
            if |words| <= 180 then i == 0 && Words(text) == words
            else i * 150 < |words| && Words(text) == words[i * 150..][..Min(180, |words| - i * 150)]
  {
    var c := ChunksOfDoc(d)[i];
    text := c.text;
    ChunkNumbers(d.text, 180, 30, i);
    FixedFields(pl, d, c);
    hide PointOf, Words, Chunks;
    assert PointsOfDoc(pl, d)[i] == PointOf(pl, d, c);
    if Words(d.text) == [] || |Words(d.text)| <= 180 {
      ShortText(d.text, 180, 30);
    } else {
      LongText(d.text, 180, 30);
      assert ChunkIs(Words(d.text), Chunks(d.text, 180, 30), i, 180, 150);
    }
  }

  lemma FixedFields(pl: Pipeline, d: Document, c: Chunk)
    ensures var p, own := PointOf(pl, d, c), d.payload;
            && p.id == pl.uuid5(d.tenantId + (":" + (d.sourceType + (":" + (d.sourceId + (":" + Dec(c.chunkNo)))))))
            && p.vector == pl.embed(c.text)
            && p.payload.Keys == {"tenant_id", "source_type", "source_id", "chunk_no", "text"} + own.Keys
            && (forall key :: key in own ==> p.payload[key] == own[key])
            && ("tenant_id" !in own ==> p.payload["tenant_id"] == Str(d.tenantId))
            && ("source_type" !in own ==> p.payload["source_type"] == Str(d.sourceType))
            && ("source_id" !in own ==> p.payload["source_id"] == Str(d.sourceId))
            && ("chunk_no" !in own ==> p.payload["chunk_no"] == Num(c.chunkNo))
            && ("text" !in own ==> p.payload["text"] == Str(c.text))
  {
    FiveNames();
  }

  lemma FiveNames()
    ensures "tenant_id" != "text" && "source_type" != "source_id" && "chunk_no" != "text"
    ensures |"tenant_id"| == 9 && |"source_type"| == 11 && |"source_id"| == 9 && |"chunk_no"| == 8 && |"text"| == 4
    ensures "tenant_id" != "source_id"
  {
    assert "tenant_id"[0] == 't' && "source_id"[0] == 's';
  }

  function PointsOf(pl: Pipeline, docs: seq<Document>): seq<Point> {
    if docs == [] then [] else PointsOf(pl, docs[..|docs| - 1]) + PointsOfDoc(pl, docs[|docs| - 1])
  }

  datatype Meta = Meta(doc: Document, chunk: Chunk)

  function PointsOfMetas(pl: Pipeline, metas: seq<Meta>): (ps: seq<Point>)
    ensures |ps| == |metas|
  {
    if metas == [] then []
    else
      var m := metas[|metas| - 1];
      PointsOfMetas(pl, metas[..|metas| - 1]) + [PointOf(pl, m.doc, m.chunk)]
  }

  ghost predicate Paired(texts: seq<string>, metas: seq<Meta>) {
    |texts| == |metas| && forall i :: 0 <= i < |metas| ==> texts[i] == metas[i].chunk.text
  }

  /** Inner loop: the chunks of one document. */
  method CollectDoc(pl: Pipeline, doc: Document, texts0: seq<string>, metas0: seq<Meta>)
    returns (texts: seq<string>, metas: seq<Meta>)
    requires Paired(texts0, metas0)
    ensures Paired(texts, metas)
    ensures PointsOfMetas(pl, metas) == PointsOfMetas(pl, metas0) + PointsOfDoc(pl, doc)
  {
    hide PointOf, Chunks;
    texts, metas := texts0, metas0;
    var chunks := ChunkText(doc.text);
    for j := 0 to |chunks|
      invariant Paired(texts, metas)
      invariant PointsOfMetas(pl, metas) == PointsOfMetas(pl, metas0) + PointsOfChunks(pl, doc, chunks[..j])
    {
      assert chunks[..j + 1][..j] == chunks[..j];
      ghost var before := metas;
      texts := texts + [chunks[j].text];
      metas := metas + [Meta(doc, chunks[j])];
      assert metas[..|metas| - 1] == before;
    }
    assert chunks[..|chunks|] == chunks;
  }

  /** First loop: the chunk texts and their metadata, document by document. */
  method CollectChunks(pl: Pipeline, documents: seq<Document>) returns (texts: seq<string>, metas: seq<Meta>)
    ensures Paired(texts, metas) && PointsOfMetas(pl, metas) == PointsOf(pl, documents)
  {
    hide PointsOfDoc, PointOf;
    texts, metas := [], [];
    for i := 0 to |documents|
      invariant Paired(texts, metas)
      invariant PointsOfMetas(pl, metas) == PointsOf(pl, documents[..i])
    {
      texts, metas := CollectDoc(pl, documents[i], texts, metas);
      assert documents[..i + 1][..i] == documents[..i];
    }
    assert documents[..|documents|] == documents;
  }

  method DocumentsToPoints(pl: Pipeline, documents: seq<Document>) returns (points: seq<Point>)
    ensures points == PointsOf(pl, documents)
  {
    var texts, metas := CollectChunks(pl, documents);
    if texts == [] {
      return [];
    }
    var vectors := seq(|texts|, i requires 0 <= i < |texts| => pl.embed(texts[i]));
    points := [];
    for i := 0 to |metas|
      invariant points == PointsOfMetas(pl, metas[..i])
    {
      assert metas[..i + 1][..i] == metas[..i];
      var doc, chunk := metas[i].doc, metas[i].chunk;
      var pid := DeterministicPointId(pl.uuid5, doc.tenantId, doc.sourceType, doc.sourceId, chunk.chunkNo);
      var payload := map["tenant_id" := Str(doc.tenantId), "source_type" := Str(doc.sourceType),
                         "source_id" := Str(doc.sourceId), "chunk_no" := Num(chunk.chunkNo),
                         "text" := Str(texts[i])] + doc.payload;
      points := points + [Point(pid, vectors[i], payload)];
    }
    assert metas[..|metas|] == metas;
  }

  datatype IngestReport = IngestReport(
    tenantId: string, documents: nat, chunks: nat, upserted: nat, indexCount: nat, ok: bool)

  method IngestTenant(pl: Pipeline, store: InMemoryVectorStore, tenantId: string, extracted: seq<Document>,
                      extra: seq<Document>)
    returns (report: IngestReport)
    requires store.Valid()
    modifies store
    ensures store.Valid()
    ensures store.Contents() == PutAll(old(store.Contents()), PointsOf(pl, extracted + extra))
    ensures report.tenantId == tenantId && report.documents == |extracted| + |extra| && report.ok
    ensures report.chunks == report.upserted == |PointsOf(pl, extracted + extra)|
    ensures report.indexCount == CountIn(store.Contents(), Some(tenantId))
  {
    var documents := extracted + extra;
    var points := DocumentsToPoints(pl, documents);
    var upserted := |points|;
    if points != [] {
      upserted := store.Upsert(points);
    }
    var indexCount := store.Count(Some(tenantId));
    report := IngestReport(tenantId, |documents|, |points|, upserted, indexCount, true);
  }

  // ---- ids of a document's points ----

  predicate SameSource(d: Document, e: Document) {
    d.tenantId == e.tenantId && d.sourceType == e.sourceType && d.sourceId == e.sourceId
  }

  predicate ColonFree(docs: seq<Document>) {
    forall d :: d in docs ==> ':' !in d.tenantId && ':' !in d.sourceType
  }

  ghost predicate DistinctSources(docs: seq<Document>) {
    forall i, j :: 0 <= i < j < |docs| ==> !SameSource(docs[i], docs[j])
  }

  lemma SameIdSameSource(pl: Pipeline, d: Document, n: nat, e: Document, m: nat)
    requires Injective(pl.uuid5) && ColonFree([d, e]) && PointId(pl, d, n) == PointId(pl, e, m)
    ensures SameSource(d, e) && n == m
  {
    assert d in [d, e] && e in [d, e];
    PointNameInjective(d.tenantId, d.sourceType, d.sourceId, n, e.tenantId, e.sourceType, e.sourceId, m);
  }

  /** The ids of a document are those of the chunk numbers 0, 1, 2, ... */
  lemma IdsOfDoc(pl: Pipeline, d: Document, id: string)
    ensures id in Ids(PointsOfDoc(pl, d)) <==> exists n: nat :: n < |ChunksOfDoc(d)| && id == PointId(pl, d, n)
  {
    var cs, ps := ChunksOfDoc(d), PointsOfDoc(pl, d);
    if id in Ids(ps) {
      var i :| 0 <= i < |ps| && ps[i].id == id;
      ChunkNumbers(d.text, 180, 30, i);
      assert id == PointId(pl, d, i);
    }
    if n: nat :| n < |cs| && id == PointId(pl, d, n) {
      ChunkNumbers(d.text, 180, 30, n);
      assert ps[n].id == id;
    }
  }

  lemma DisjointIds(pl: Pipeline, d: Document, e: Document)
    requires Injective(pl.uuid5) && ColonFree([d, e]) && !SameSource(d, e)
    ensures Ids(PointsOfDoc(pl, d)) !! Ids(PointsOfDoc(pl, e))
  {
    forall id | id in Ids(PointsOfDoc(pl, d)) && id in Ids(PointsOfDoc(pl, e)) ensures false {
      IdsOfDoc(pl, d, id);
      IdsOfDoc(pl, e, id);
      var n: nat :| id == PointId(pl, d, n);
      var m: nat :| id == PointId(pl, e, m);
      SameIdSameSource(pl, d, n, e, m);
    }
  }

  // ---- incremental ingestion ----

  /** Every point of the document is already in the store, unchanged. */
  ghost predicate Holds(s: Store, ps: seq<Point>) {
    forall p :: p in ps ==> p.id in s.points && s.points[p.id] == p
  }

  lemma {:induction false} PutHeld(s: Store, ps: seq<Point>)
    requires Holds(s, ps)
    ensures PutAll(s, ps) == s
    decreases |ps|
  {
    if ps != [] {
      assert ps[0] in ps;
      assert Put(s, ps[0]) == s;
      PutHeld(s, ps[1..]);
    }
  }

  lemma {:induction false} PutOthers(s: Store, ps: seq<Point>, held: seq<Point>)
    requires Holds(s, held) && Ids(ps) !! Ids(held)
    ensures Holds(PutAll(s, ps), held)
    decreases |ps|
  {
    if ps != [] {
      assert ps[0].id in Ids(ps);
      forall p | p in held ensures p.id != ps[0].id { assert p.id in Ids(held); }
      assert Ids(ps[1..]) <= Ids(ps);
      PutOthers(Put(s, ps[0]), ps[1..], held);
    }
  }

  /** The documents that are ingested again. */
  function Changed(docs: seq<Document>, stale: Document -> bool): seq<Document> {
    if docs == [] then []
    else Changed(docs[..|docs| - 1], stale) + if stale(docs[|docs| - 1]) then [docs[|docs| - 1]] else []
  }

  ghost predicate KeptAreHeld(pl: Pipeline, s: Store, docs: seq<Document>, stale: Document -> bool) {
    forall d :: d in docs && !stale(d) ==> Holds(s, PointsOfDoc(pl, d))
  }

  lemma ChangedSubset(docs: seq<Document>, stale: Document -> bool, d: Document)
    ensures d in Changed(docs, stale) <==> d in docs && stale(d)
  {
    if docs != [] {
      var n := |docs| - 1;
      ChangedSubset(docs[..n], stale, d);
      assert docs == docs[..n] + [docs[n]];
    }
  }

  lemma {:induction false} HeldThroughout(pl: Pipeline, s: Store, docs: seq<Document>, d: Document)
    requires Injective(pl.uuid5) && ColonFree(docs + [d]) && Holds(s, PointsOfDoc(pl, d))
    requires forall e :: e in docs ==> !SameSource(e, d)
    ensures Holds(PutAll(s, PointsOf(pl, docs)), PointsOfDoc(pl, d))
  {
    if docs != [] {
      var n := |docs| - 1;
      assert docs == docs[..n] + [docs[n]];
      HeldThroughout(pl, s, docs[..n], d);
      PutAllConcat(s, PointsOf(pl, docs[..n]), PointsOfDoc(pl, docs[n]));
      DisjointIds(pl, docs[n], d);
      PutOthers(PutAll(s, PointsOf(pl, docs[..n])), PointsOfDoc(pl, docs[n]), PointsOfDoc(pl, d));
    }
  }

  /** One more kept document adds nothing. */
  lemma KeptDocument(pl: Pipeline, s: Store, init: seq<Document>, d: Document)
    requires Injective(pl.uuid5) && ColonFree(init + [d]) && DistinctSources(init + [d])
    requires Holds(s, PointsOfDoc(pl, d))
    ensures PutAll(s, PointsOf(pl, init) + PointsOfDoc(pl, d)) == PutAll(s, PointsOf(pl, init))
  {
    hide PointsOfDoc, PointsOf, Holds, ColonFree, SameSource, PutAll;
    forall e | e in init ensures !SameSource(e, d) {
      var i :| 0 <= i < |init| && init[i] == e;
      assert !SameSource((init + [d])[i], (init + [d])[|init|]);
    }
    HeldThroughout(pl, s, init, d);
    PutHeld(PutAll(s, PointsOf(pl, init)), PointsOfDoc(pl, d));
    PutAllConcat(s, PointsOf(pl, init), PointsOfDoc(pl, d));
  }

  lemma ChangedLast(pl: Pipeline, init: seq<Document>, d: Document, stale: Document -> bool)
    ensures PointsOf(pl, Changed(init + [d], stale))
         == PointsOf(pl, Changed(init, stale)) + if stale(d) then PointsOfDoc(pl, d) else []
    ensures PointsOf(pl, init + [d]) == PointsOf(pl, init) + PointsOfDoc(pl, d)
  {
    hide PointsOfDoc;
    assert (init + [d])[..|init|] == init;
    var c := Changed(init, stale);
    assert (c + [d])[..|c|] == c;
    assert c + [] == c && PointsOf(pl, c) + [] == PointsOf(pl, c);
  }

  /** Ingesting only the changed documents gives the same store - points and
      insertion order - as ingesting all of them again. */
  lemma {:induction false} IncrementalIsFull(pl: Pipeline, s: Store, docs: seq<Document>, stale: Document -> bool)
    requires Injective(pl.uuid5) && ColonFree(docs) && DistinctSources(docs)
    requires KeptAreHeld(pl, s, docs, stale)
    ensures PutAll(s, PointsOf(pl, Changed(docs, stale))) == PutAll(s, PointsOf(pl, docs))
    decreases |docs|
  {
    if docs != [] {
      hide PointsOfDoc, PointsOf, Changed, PutAll, Holds, SameSource;
      var n := |docs| - 1;
      var d, init := docs[n], docs[..n];
      assert docs == init + [d];
      IncrementalIsFull(pl, s, init, stale);
      ChangedLast(pl, init, d, stale);
      if stale(d) {
        PutAllConcat(s, PointsOf(pl, init), PointsOfDoc(pl, d));
        PutAllConcat(s, PointsOf(pl, Changed(init, stale)), PointsOfDoc(pl, d));
      } else {
        KeptDocument(pl, s, init, d);
        assert PointsOf(pl, Changed(init, stale)) + [] == PointsOf(pl, Changed(init, stale));
      }
    } else {
      assert Changed(docs, stale) == docs;
    }
  }

  // ---- an earlier ingest holds its documents ----

  lemma {:induction false} PutAllHolds(s: Store, ps: seq<Point>)
    requires forall i, j :: 0 <= i < j < |ps| ==> ps[i].id != ps[j].id
    ensures Holds(PutAll(s, ps), ps)
  {
    if ps != [] {
      var n := |ps| - 1;
      assert ps == ps[..n] + [ps[n]];
      PutAllHolds(s, ps[..n]);
      PutAllConcat(s, ps[..n], [ps[n]]);
      assert PutAll(s, ps) == Put(PutAll(s, ps[..n]), ps[n]);
    }
  }

  lemma DocIdsDistinct(pl: Pipeline, d: Document, i: nat, j: nat)
    requires Injective(pl.uuid5) && ColonFree([d]) && i < j < |PointsOfDoc(pl, d)|
    ensures PointsOfDoc(pl, d)[i].id != PointsOfDoc(pl, d)[j].id
  {
    hide Chunks;
    ChunkNumbers(d.text, 180, 30, i);
    ChunkNumbers(d.text, 180, 30, j);
    assert d in [d];
    if PointId(pl, d, i) == PointId(pl, d, j) { SameIdSameSource(pl, d, i, d, j); }
  }

  /** Ingesting distinct sources leaves every one of them in the store. */
  lemma {:induction false} IngestedAreHeld(pl: Pipeline, s: Store, docs: seq<Document>, d: Document)
    requires Injective(pl.uuid5) && ColonFree(docs) && DistinctSources(docs) && d in docs
    ensures Holds(PutAll(s, PointsOf(pl, docs)), PointsOfDoc(pl, d))
  {
    hide PointsOfDoc, Holds, PutAll, SameSource;
    var n := |docs| - 1;
    var t, e := PutAll(s, PointsOf(pl, docs[..n])), docs[n];
    PutAllConcat(s, PointsOf(pl, docs[..n]), PointsOfDoc(pl, e));
    if d == e {
      forall i, j | 0 <= i < j < |PointsOfDoc(pl, d)|
        ensures PointsOfDoc(pl, d)[i].id != PointsOfDoc(pl, d)[j].id
      {
        DocIdsDistinct(pl, d, i, j);
      }
      PutAllHolds(t, PointsOfDoc(pl, d));
    } else {
      var i :| 0 <= i < n && docs[i] == d;
      assert docs[..n][i] == d && !SameSource(docs[i], docs[n]);
      IngestedAreHeld(pl, s, docs[..n], d);
      DisjointIds(pl, d, e);
      PutOthers(t, PointsOfDoc(pl, e), PointsOfDoc(pl, d));
    }
  }

  /** On top of any index that an earlier ingest left behind, ingesting only the
      documents that are new or changed since gives the same store - points and
      insertion order - as ingesting all current documents. */
  lemma IncrementalOverEarlier(pl: Pipeline, s: Store, earlier: seq<Document>, current: seq<Document>)
    requires Injective(pl.uuid5) && ColonFree(earlier) && DistinctSources(earlier)
    requires ColonFree(current) && DistinctSources(current)
    ensures var stale := (d: Document) => d !in earlier;
            var index := PutAll(s, PointsOf(pl, earlier));
            && PutAll(index, PointsOf(pl, Changed(current, stale))) == PutAll(index, PointsOf(pl, current))
            && forall d :: d in Changed(current, stale) <==> d in current && d !in earlier
  {
    hide ColonFree, DistinctSources, PointsOf, PutAll, Changed, Holds, PointsOfDoc;
    var stale := (d: Document) => d !in earlier;
    var index := PutAll(s, PointsOf(pl, earlier));
    forall d | d in current && !stale(d)
      ensures Holds(index, PointsOfDoc(pl, d))
    {
      IngestedAreHeld(pl, s, earlier, d);
    }
    IncrementalIsFull(pl, index, current, stale);
    forall d
      ensures d in Changed(current, stale) <==> d in current && d !in earlier
    {
      ChangedSubset(current, stale, d);
    }
  }

  // ---- the latest point of every id ----

  function Latest(ps: seq<Point>): map<string, Point> {
    if ps == [] then map[] else Latest(ps[..|ps| - 1])[ps[|ps| - 1].id := ps[|ps| - 1]]
  }

  lemma IdsConcat(ps: seq<Point>, qs: seq<Point>)
    ensures Ids(ps + qs) == Ids(ps) + Ids(qs)
  {
  }

  lemma {:induction false} LatestKeys(ps: seq<Point>)
    ensures Latest(ps).Keys == Ids(ps)
  {
    if ps != [] {
      var n := |ps| - 1;
      LatestKeys(ps[..n]);
      IdsConcat(ps[..n], [ps[n]]);
      assert ps == ps[..n] + [ps[n]];
    }
  }

  lemma {:induction false} PutAllPoints(s: Store, ps: seq<Point>)
    ensures PutAll(s, ps).points == s.points + Latest(ps)
  {
    if ps != [] {
      var n := |ps| - 1;
      assert ps == ps[..n] + [ps[n]];
      PutAllPoints(s, ps[..n]);
      PutAllConcat(s, ps[..n], [ps[n]]);
      assert PutAll(s, ps) == Put(PutAll(s, ps[..n]), ps[n]);
    }
  }

  lemma {:induction false} PutKnown(s: Store, ps: seq<Point>)
    requires Ids(ps) <= s.points.Keys
    ensures PutAll(s, ps).order == s.order
    decreases |ps|
  {
    if ps != [] {
      assert ps[0].id in Ids(ps) && Ids(ps[1..]) <= Ids(ps);
      PutKnown(Put(s, ps[0]), ps[1..]);
    }
  }

  /** Ingesting the same documents twice is ingesting them once, whatever the
      documents are and whatever the store held before. */
  lemma IngestTwice(pl: Pipeline, s: Store, docs: seq<Document>)
    ensures var ps := PointsOf(pl, docs); PutAll(PutAll(s, ps), ps) == PutAll(s, ps)
  {
    var ps := PointsOf(pl, docs);
    var t := PutAll(s, ps);
    PutAllPoints(s, ps);
    PutAllPoints(t, ps);
    LatestKeys(ps);
    PutKnown(t, ps);
  }

  // ---- when an index agrees with a rebuild ----

  /** The ids of a list of documents are those of its documents. */
  lemma {:induction false} IdsIncluded(pl: Pipeline, docs: seq<Document>, d: Document)
    requires d in docs
    ensures Ids(PointsOfDoc(pl, d)) <= Ids(PointsOf(pl, docs))
  {
    hide Ids, PointsOfDoc;
    var n := |docs| - 1;
    IdsConcat(PointsOf(pl, docs[..n]), PointsOfDoc(pl, docs[n]));
    if d != docs[n] { IdsIncluded(pl, docs[..n], d); }
  }

  lemma {:induction false} IdOwner(pl: Pipeline, docs: seq<Document>, id: string) returns (d: Document)
    requires id in Ids(PointsOf(pl, docs))
    ensures d in docs && id in Ids(PointsOfDoc(pl, d))
  {
    assert docs == [] ==> PointsOf(pl, docs) == [];
    var n := |docs| - 1;
    IdsConcat(PointsOf(pl, docs[..n]), PointsOfDoc(pl, docs[n]));
    if id in Ids(PointsOfDoc(pl, docs[n])) { d := docs[n]; } else { d := IdOwner(pl, docs[..n], id); }
  }

  /** The document is still there with at least as many chunks, or never had any. */
  ghost predicate Survives(d: Document, current: seq<Document>) {
    ChunksOfDoc(d) == []
    || exists e :: e in current && SameSource(e, d) && |ChunksOfDoc(e)| >= |ChunksOfDoc(d)|
  }

  lemma SurvivingIds(pl: Pipeline, d: Document, current: seq<Document>)
    requires Survives(d, current)
    ensures Ids(PointsOfDoc(pl, d)) <= Ids(PointsOf(pl, current))
  {
    forall id | id in Ids(PointsOfDoc(pl, d)) ensures id in Ids(PointsOf(pl, current)) {
      IdsOfDoc(pl, d, id);
      var n: nat :| n < |ChunksOfDoc(d)| && id == PointId(pl, d, n);
      var e :| e in current && SameSource(e, d) && |ChunksOfDoc(e)| >= |ChunksOfDoc(d)|;
      assert id == PointId(pl, e, n);
      IdsOfDoc(pl, e, id);
      IdsIncluded(pl, current, e);
    }
  }

  lemma SurvivorFound(pl: Pipeline, d: Document, current: seq<Document>)
    requires Injective(pl.uuid5) && ColonFree(current + [d])
    requires Ids(PointsOfDoc(pl, d)) <= Ids(PointsOf(pl, current))
    ensures Survives(d, current)
  {
    var n := |ChunksOfDoc(d)| - 1;
    if n >= 0 {
      var id := PointId(pl, d, n);
      IdsOfDoc(pl, d, id);
      var e := IdOwner(pl, current, id);
      IdsOfDoc(pl, e, id);
      var m: nat :| m < |ChunksOfDoc(e)| && id == PointId(pl, e, m);
      SameIdSameSource(pl, d, n, e, m);
    }
  }

  /** An index built from earlier documents and then from the current ones holds
      exactly the current chunks if and only if no earlier document vanished or
      lost chunks: nothing ever deletes a point. */
  lemma AgreesWithRebuild(pl: Pipeline, earlier: seq<Document>, current: seq<Document>)
    requires Injective(pl.uuid5) && ColonFree(earlier) && ColonFree(current)
    ensures PutAll(PutAll(EMPTY, PointsOf(pl, earlier)), PointsOf(pl, current)).points
            == PutAll(EMPTY, PointsOf(pl, current)).points
       <==> forall d :: d in earlier ==> Survives(d, current)
  {
    hide Survives, ColonFree, PointsOf, PointsOfDoc, PutAll, Ids, Latest;
    var ps, qs := PointsOf(pl, earlier), PointsOf(pl, current);
    PutAllPoints(EMPTY, ps);
    PutAllPoints(PutAll(EMPTY, ps), qs);
    PutAllPoints(EMPTY, qs);
    LatestKeys(ps);
    LatestKeys(qs);
    MapAbsorbs(Latest(ps), Latest(qs));
    if Ids(ps) <= Ids(qs) {
      forall d | d in earlier ensures Survives(d, current) {
        IdsIncluded(pl, earlier, d);
        ColonFreeWith(earlier, current, d);
        SurvivorFound(pl, d, current);
      }
    }
    if forall d :: d in earlier ==> Survives(d, current) {
      forall id | id in Ids(ps) ensures id in Ids(qs) {
        var d := IdOwner(pl, earlier, id);
        SurvivingIds(pl, d, current);
      }
    }
  }

  lemma MapAbsorbs(m: map<string, Point>, n: map<string, Point>)
    ensures (map[] + m) + n == map[] + n <==> m.Keys <= n.Keys
  {
    if (map[] + m) + n == map[] + n { assert m.Keys <= ((map[] + m) + n).Keys; }
  }

  lemma ColonFreeWith(earlier: seq<Document>, current: seq<Document>, d: Document)
    requires ColonFree(earlier) && ColonFree(current) && d in earlier
    ensures ColonFree(current + [d])
  {
  }
}
