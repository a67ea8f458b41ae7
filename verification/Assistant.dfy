/** Retrieval and the grounded assistant: rag/mudahurus_rag/retrieval/service.py
    and rag/mudahurus_rag/assistant/service.py. The language model is a function
    of the question and the chunk texts. */
module Assistant {
  import opened Text
  import opened Embeddings
  import opened VectorStore

  datatype Retriever = Retriever(sqrt: real -> real, embed: string -> Vector, store: Store)

  datatype RetrievedChunk = RetrievedChunk(text: Value, score: real, sourceType: Value, sourceId: Value)

  function Field(p: Payload, key: string): Value {
    if key in p then p[key] else Str("")
  }

  function ChunkOf(h: Hit): RetrievedChunk {
    RetrievedChunk(Field(h.payload, "text"), h.score, Field(h.payload, "source_type"), Field(h.payload, "source_id"))
  }

  function ChunksOfHits(hits: seq<Hit>): (cs: seq<RetrievedChunk>)
    ensures |cs| == |hits| && forall i :: 0 <= i < |hits| ==> cs[i] == ChunkOf(hits[i])
  {
    seq(|hits|, i requires 0 <= i < |hits| => ChunkOf(hits[i]))
  }

  function Hits(r: Retriever, tenantId: string, query: string, topK: int, sourceTypes: seq<string>): seq<Hit>
    requires WellOrdered(r.store)
  {
    SearchIn(r.sqrt, Points(r.store), tenantId, r.embed(query), topK, sourceTypes)
  }

  /** None is the ValueError for a missing tenant. */
  function Retrieve(r: Retriever, tenantId: string, query: string, topK: int,
                    sourceTypes: seq<string>): Option<seq<RetrievedChunk>>
    requires WellOrdered(r.store)
  {
    if tenantId == "" then None
    else if Strip(query) == "" then Some([])
    else Some(ChunksOfHits(Hits(r, tenantId, query, topK, sourceTypes)))
  }

  datatype Citation = Citation(sourceType: Value, sourceId: Value, score: real)

  datatype Answer = Refusal | Grounded(answer: string, citations: seq<Citation>)

  /** `round(x, 4)`: to the nearest multiple of 0.0001, ties to even. */
  function Round4(x: real): real {
    var f := (x * 10000.0).Floor;
    var rest := x * 10000.0 - f as real;
    (if rest < 0.5 || (rest == 0.5 && f % 2 == 0) then f else f + 1) as real / 10000.0
  }

  function GroundedChunks(cs: seq<RetrievedChunk>, minScore: real): seq<RetrievedChunk> {
    if cs == [] then [] else (if cs[0].score >= minScore then [cs[0]] else []) + GroundedChunks(cs[1..], minScore)
  }

  function CitationOf(c: RetrievedChunk): Citation {
    Citation(c.sourceType, c.sourceId, Round4(c.score))
  }

  function Citations(cs: seq<RetrievedChunk>): (r: seq<Citation>)
    ensures |r| == |cs| && forall i :: 0 <= i < |cs| ==> r[i] == CitationOf(cs[i])
  {
    seq(|cs|, i requires 0 <= i < |cs| => CitationOf(cs[i]))
  }

  function Texts(cs: seq<RetrievedChunk>): seq<Value> {
    seq(|cs|, i requires 0 <= i < |cs| => cs[i].text)
  }

  function ScopeTypes(scope: string): seq<string> {
    if scope == "storefront" then ["product", "category"] else []
  }

  function Ask(r: Retriever, llm: (string, seq<Value>) -> string, minScore: real,
               tenantId: string, question: string, scope: string, topK: int): Option<Answer>
    requires WellOrdered(r.store)
  {
    match Retrieve(r, tenantId, question, topK, ScopeTypes(scope))
    case None => None
    case Some(chunks) =>
      var grounded := GroundedChunks(chunks, minScore);
      if grounded == [] then Some(Refusal)
      else
        var text := llm(question, Texts(grounded));
        if Strip(text) == "" then Some(Refusal) else Some(Grounded(text, Citations(grounded)))
  }

  lemma {:induction false} GroundedHits(hits: seq<Hit>, minScore: real)
    ensures GroundedChunks(ChunksOfHits(hits), minScore) == ChunksOfHits(AtLeast(hits, minScore))
  {
    if hits != [] {
      GroundedHits(hits[1..], minScore);
      assert ChunksOfHits(hits)[1..] == ChunksOfHits(hits[1..]);
      var g := AtLeast(hits[1..], minScore);
      assert ChunksOfHits([hits[0]] + g) == [ChunkOf(hits[0])] + ChunksOfHits(g);
    }
  }

  /** A grounded answer cites exactly the first hits, as many as reach the
      threshold: every one of them does, and no later hit does. */
  lemma CitationsArePrefix(r: Retriever, llm: (string, seq<Value>) -> string, minScore: real,
                           tenantId: string, question: string, scope: string, topK: int)
    requires WellOrdered(r.store)
    requires var a := Ask(r, llm, minScore, tenantId, question, scope, topK); a.Some? && a.value.Grounded?
    ensures var cs := Ask(r, llm, minScore, tenantId, question, scope, topK).value.citations;
            var hits := Hits(r, tenantId, question, topK, ScopeTypes(scope));
            0 < |cs| <= |hits| && cs == Citations(ChunksOfHits(hits[..|cs|]))
            && (forall i :: 0 <= i < |cs| ==> hits[i].score >= minScore)
            && (forall i :: |cs| <= i < |hits| ==> hits[i].score < minScore)
  {
    hide SearchIn, Strip;
    var hits := Hits(r, tenantId, question, topK, ScopeTypes(scope));
    HitsDescend(r, tenantId, question, topK, ScopeTypes(scope));
    GroundedHits(hits, minScore);
    ThresholdIsPrefix(hits, minScore);
  }

  lemma HitsDescend(r: Retriever, tenantId: string, query: string, topK: int, sourceTypes: seq<string>)
    requires WellOrdered(r.store)
    ensures Descending(Hits(r, tenantId, query, topK, sourceTypes))
  {
    var ms := Matches(r.sqrt, Points(r.store), tenantId, sourceTypes, r.embed(query));
    SortIsStable(ms, 0.0);
    assert Take(SortDesc(ms), topK) <= SortDesc(ms);
  }

  /** The assistant refuses exactly when no hit reaches the threshold or the
      model has nothing to say. */
  lemma RefusalIff(r: Retriever, llm: (string, seq<Value>) -> string, minScore: real,
                   tenantId: string, question: string, scope: string, topK: int)
    requires WellOrdered(r.store) && tenantId != "" && Strip(question) != ""
    ensures var hits := Hits(r, tenantId, question, topK, ScopeTypes(scope));
            var silent := Strip(llm(question, Texts(ChunksOfHits(AtLeast(hits, minScore))))) == "";
            Ask(r, llm, minScore, tenantId, question, scope, topK) == Some(Refusal)
            <==> silent || forall h :: h in hits ==> h.score < minScore
  {
    hide SearchIn, Strip;
    var hits := Hits(r, tenantId, question, topK, ScopeTypes(scope));
    HitsDescend(r, tenantId, question, topK, ScopeTypes(scope));
    GroundedHits(hits, minScore);
    ThresholdIsPrefix(hits, minScore);
    if AtLeast(hits, minScore) != [] { assert hits[0] in hits; }
  }

  /** Every hit comes from a stored point of the asking tenant; for the
      storefront only from a product or a category. */
  lemma HitsInScope(r: Retriever, tenantId: string, question: string, scope: string, topK: int, h: Hit)
    returns (p: Point)
    requires WellOrdered(r.store) && h in Hits(r, tenantId, question, topK, ScopeTypes(scope))
    ensures p in Points(r.store) && h == HitOf(r.sqrt, r.embed(question), p)
    ensures "tenant_id" in h.payload && h.payload["tenant_id"] == Str(tenantId)
    ensures scope == "storefront" ==> Field(h.payload, "source_type") in {Str("product"), Str("category")}
  {
    hide Matches, SortDesc;
    var ms := Matches(r.sqrt, Points(r.store), tenantId, ScopeTypes(scope), r.embed(question));
    SortIsStable(ms, 0.0);
    assert h in SortDesc(ms);
    assert h in multiset(ms);
    p := MatchesSound(r.sqrt, Points(r.store), tenantId, ScopeTypes(scope), r.embed(question), h);
  }

  lemma Round4Near(x: real)
    ensures -0.00005 <= Round4(x) - x <= 0.00005
    ensures (Round4(x) * 10000.0).Floor as real == Round4(x) * 10000.0
  {
    var f := (x * 10000.0).Floor;
    var n := if x * 10000.0 - f as real < 0.5 || (x * 10000.0 - f as real == 0.5 && f % 2 == 0) then f else f + 1;
    assert Round4(x) == n as real / 10000.0;
    assert Round4(x) * 10000.0 == n as real;
  }

  /** What a grounded answer consists of: the model's words about the texts of the
      cited hits, and for each of them its source and its score to four places. */
  lemma AnswerIs(r: Retriever, llm: (string, seq<Value>) -> string, minScore: real,
                 tenantId: string, question: string, scope: string, topK: int) returns (texts: seq<Value>)
    requires WellOrdered(r.store)
    requires var a := Ask(r, llm, minScore, tenantId, question, scope, topK); a.Some? && a.value.Grounded?
    ensures var a := Ask(r, llm, minScore, tenantId, question, scope, topK).value;
            var types := if scope == "storefront" then ["product", "category"] else [];
            var hits := Hits(r, tenantId, question, topK, types);
            && |texts| == |a.citations| <= |hits| && a.answer == llm(question, texts)
            && forall i :: 0 <= i < |texts| ==>
                 var p, c := hits[i].payload, a.citations[i];
                 && texts[i] == (if "text" in p then p["text"] else Str(""))
                 && c.sourceType == (if "source_type" in p then p["source_type"] else Str(""))
                 && c.sourceId == (if "source_id" in p then p["source_id"] else Str(""))
                 && -0.00005 <= c.score - hits[i].score <= 0.00005
  {
    hide SearchIn, Strip, Round4;
    var hits := Hits(r, tenantId, question, topK, ScopeTypes(scope));
    HitsDescend(r, tenantId, question, topK, ScopeTypes(scope));
    GroundedHits(hits, minScore);
    ThresholdIsPrefix(hits, minScore);
    texts := Texts(ChunksOfHits(AtLeast(hits, minScore)));
    forall i | 0 <= i < |texts|
      ensures -0.00005 <= Round4(hits[i].score) - hits[i].score <= 0.00005
    {
      Round4Near(hits[i].score);
    }
  }

  /** Without a tenant there is an error, and a blank question is refused. */
  lemma NothingAsked(r: Retriever, llm: (string, seq<Value>) -> string, minScore: real,
                     tenantId: string, question: string, scope: string, topK: int)
    requires WellOrdered(r.store)
    ensures Ask(r, llm, minScore, tenantId, question, scope, topK).None? <==> tenantId == ""
    ensures tenantId != "" && Strip(question) == ""
            ==> Ask(r, llm, minScore, tenantId, question, scope, topK) == Some(Refusal)
  {
    hide Hits, Strip;
  }

  /** As long as fewer hits come back than were asked for, none is missing: every
      point of the tenant, for the storefront every product and category, is one. */
  lemma HitsComplete(r: Retriever, tenantId: string, question: string, scope: string, topK: nat, p: Point)
    requires WellOrdered(r.store) && p in Points(r.store)
    requires "tenant_id" in p.payload && p.payload["tenant_id"] == Str(tenantId)
    requires scope == "storefront" ==>
               "source_type" in p.payload && p.payload["source_type"] in {Str("product"), Str("category")}
    requires |Hits(r, tenantId, question, topK, ScopeTypes(scope))| < topK
    ensures Hit(p.id, Cosine(r.sqrt, r.embed(question), p.vector), p.payload)
            in Hits(r, tenantId, question, topK, ScopeTypes(scope))
  {
    hide Matches, SortDesc;
    var ms := Matches(r.sqrt, Points(r.store), tenantId, ScopeTypes(scope), r.embed(question));
    var h := Hit(p.id, Cosine(r.sqrt, r.embed(question), p.vector), p.payload);
    SortIsStable(ms, 0.0);
    assert scope == "storefront" ==> exists t :: t in ScopeTypes(scope) && p.payload["source_type"] == Str(t) by {
      assert "product" in ["product", "category"] && "category" in ["product", "category"];
    }
    MatchesComplete(r.sqrt, Points(r.store), tenantId, ScopeTypes(scope), r.embed(question), p);
    assert h in multiset(ms);
    assert h in SortDesc(ms);
  }
}
