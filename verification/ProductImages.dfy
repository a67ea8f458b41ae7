/** Product images over two stores: uploadImage of api/internal/catalog/handler.go,
    the product statements of api/internal/catalog/repo.go and the object store of
    api/internal/storage/local.go. Keys are fresh names; 0 stands for "no image". */
module ProductImages {
  import opened Runs

  type Key = nat

  const NO_KEY: Key := 0

  // ---- the two stores ----

  /** How a put ends. A copy that breaks off leaves the half-written file behind;
      an object that is too large is removed again, unless that fails. A put that
      cannot create its file ends like one that was removed. */
  datatype PutOutcome = Complete | BreaksOff | TooLarge | TooLargeKept

  predicate LeavesFile(o: PutOutcome) {
    !o.TooLarge?
  }

  class LocalStorage {
    var files: set<Key>

    constructor ()
      ensures files == {}
    {
      files := {};
    }

    method Put(key: Key, outcome: PutOutcome) returns (ok: bool)
      requires key != NO_KEY && key !in files
      modifies this
      ensures ok == outcome.Complete?
      ensures files == if LeavesFile(outcome) then old(files) + {key} else old(files)
    {
      files := files + {key};
      if outcome.BreaksOff? {
        return false;
      }
      if outcome.TooLarge? || outcome.TooLargeKept? {
        if outcome.TooLarge? {
          files := files - {key};
        }
        return false;
      }
      ok := true;
    }

    /** A missing file counts as deleted. */
    method Delete(key: Key, fails: bool) returns (ok: bool)
      modifies this
      ensures ok == !fails && files == if fails then old(files) else old(files) - {key}
    {
      if !fails {
        files := files - {key};
      }
      ok := !fails;
    }
  }

  /** A statement can fail, or commit and then lose its answer. */
  datatype Outcome = Works | Fails | AnswerLost

  class ProductRepo {
    var images: map<nat, Key>

    constructor ()
      ensures images == map[]
    {
      images := map[];
    }

    method CreateProduct(id: nat)
      requires id !in images
      modifies this
      ensures images == old(images)[id := NO_KEY]
    {
      images := images[id := NO_KEY];
    }

    /** Sets the other columns only. */
    method UpdateProduct(id: nat) returns (found: bool)
      modifies this
      ensures images == old(images) && found == (id in images)
    {
      found := id in images;
    }

    /** An error says nothing about whether the row was changed. */
    method SetProductImage(id: nat, key: Key, outcome: Outcome) returns (ok: bool, oldKey: Key)
      modifies this
      ensures ok == (outcome.Works? && id in old(images))
      ensures ok ==> oldKey == old(images)[id]
      ensures images == if id in old(images) && !outcome.Fails? then old(images)[id := key] else old(images)
    {
      ok, oldKey := false, NO_KEY;
      if id in images && !outcome.Fails? {
        oldKey := images[id];
        images := images[id := key];
        ok := outcome.Works?;
      }
    }

    method DeleteProduct(id: nat) returns (found: bool)
      modifies this
      ensures images == old(images) - {id} && found == (id in old(images))
    {
      found := id in images;
      images := images - {id};
    }
  }

  /** uploadImage without interruption: put, swap, delete the old object, or the
      new one when the swap reported an error. */
  method UploadImage(store: LocalStorage, repo: ProductRepo, id: nat, key: Key, put: PutOutcome, swap: Outcome,
                      fails: bool)
    returns (ok: bool)
    requires key != NO_KEY && key !in store.files && key !in repo.images.Values
    modifies store, repo
    ensures ok == (put.Complete? && swap.Works? && id in old(repo.images))
    ensures repo.images == if put.Complete? && !swap.Fails? && id in old(repo.images) then old(repo.images)[id := key]
                           else old(repo.images)
    ensures store.files == if !put.Complete? then old(store.files) + (if LeavesFile(put) then {key} else {})
                           else if fails then old(store.files) + {key}
                           else if ok then old(store.files) + {key} - ({old(repo.images)[id]} - {NO_KEY})
                           else old(store.files)
  {
    var stored := store.Put(key, put);
    if !stored {
      return false;
    }
    var swapped, oldKey := repo.SetProductImage(id, key, swap);
    if !swapped {
      var _ := store.Delete(key, fails);
      return false;
    }
    if oldKey != NO_KEY && oldKey != key {
      assert oldKey in old(repo.images).Values;
      var _ := store.Delete(oldKey, fails);
    } else {
      assert oldKey != key by {
        assert old(repo.images)[id] in old(repo.images).Values;
      }
    }
    ok := true;
  }

  // ---- every run: uploads, edits and deletes interleave ----

  /** The old row as the swap's statement sees it: under READ COMMITTED its
      snapshot may be older than the row it updates. */
  datatype Seen = NotYet | Missing | Saw(key: Key)

  /** An upload between two steps. */
  datatype Upload = Stored(product: nat, key: Key, seen: Seen) | MustDelete(key: Key)

  /** The two stores and the uploads under way; then history, which is stored
      nowhere: `ids` are all products there ever were, `used` all keys ever handed
      out, `orphans` the last keys of deleted products, `undeleted` the keys whose
      delete failed, `partial` the leavings of broken puts, `lost` the keys of
      committed swaps that were reported as errors, `stranded` the keys displaced
      by a swap that did not return them, `again` the keys returned by a swap that
      displaced another, and `gone` the keys whose delete succeeded. */
  datatype State = State(
    files: set<Key>, images: map<nat, Key>, uploads: map<nat, Upload>,
    ids: set<nat>, used: set<Key>, orphans: set<Key>, undeleted: set<Key>, partial: set<Key>,
    lost: set<Key>, stranded: set<Key>, again: set<Key>, gone: set<Key>)

  const INIT := State({}, map[], map[], {}, {NO_KEY}, {}, {}, {}, {}, {}, {}, {})

  datatype Event =
    | CreateProduct(id: nat)
    | EditProduct(id: nat)
    | DeleteProduct(id: nat)
    | PutFile(p: nat, product: nat, key: Key, put: PutOutcome)
    | Snapshot(p: nat)
    | SwapKey(p: nat, swap: Outcome)
    | DeleteFile(p: nat, fails: bool)

  function Real(key: Key): set<Key> {
    if key == NO_KEY then {} else {key}
  }

  function ApplyPut(s: State, e: Event): State
    requires e.PutFile?
  {
    if e.p in s.uploads || e.key in s.used then s
    else
      var t := s.(used := s.used + {e.key});
      if e.put.Complete? then
        t.(files := s.files + {e.key}, uploads := s.uploads[e.p := Stored(e.product, e.key, NotYet)])
      else if LeavesFile(e.put) then t.(files := s.files + {e.key}, partial := s.partial + {e.key})
      else t
  }

  function Look(images: map<nat, Key>, product: nat): Seen {
    if product in images then Saw(images[product]) else Missing
  }

  function ApplySnapshot(s: State, p: nat): State {
    if p !in s.uploads || !s.uploads[p].Stored? || !s.uploads[p].seen.NotYet? then s
    else
      var u := s.uploads[p];
      s.(uploads := s.uploads[p := u.(seen := Look(s.images, u.product))])
  }

  /** The update itself: it finds the row when the snapshot and the current table
      have it, and returns the key that the snapshot shows. */
  function ApplySwap(s: State, p: nat, swap: Outcome): State {
    if p !in s.uploads || !s.uploads[p].Stored? then s
    else
      var product, key := s.uploads[p].product, s.uploads[p].key;
      var seen := if s.uploads[p].seen.NotYet? then Look(s.images, product) else s.uploads[p].seen;
      if swap.Fails? || seen.Missing? || product !in s.images then s.(uploads := s.uploads[p := MustDelete(key)])
      else if swap.AnswerLost? then LoseAnswer(s, p, product, key)
      else Replace(s, p, product, key, seen.key)
  }

  function LoseAnswer(s: State, p: nat, product: nat, key: Key): State
    requires product in s.images
  {
    s.(images := s.images[product := key], uploads := s.uploads[p := MustDelete(key)],
       lost := s.lost + {key}, stranded := s.stranded + Real(s.images[product]))
  }

  function Replace(s: State, p: nat, product: nat, key: Key, before: Key): State
    requires product in s.images
  {
    var t := s.(
      images := s.images[product := key],
      uploads := if before == NO_KEY || before == key then s.uploads - {p} else s.uploads[p := MustDelete(before)]);
    if before == s.images[product] then t
    else t.(stranded := s.stranded + Real(s.images[product]), again := s.again + Real(before))
  }

  function ApplyDelete(s: State, p: nat, fails: bool): State {
    if p !in s.uploads || !s.uploads[p].MustDelete? then s
    else
      var key := s.uploads[p].key;
      var t := s.(uploads := s.uploads - {p});
      if fails then t.(undeleted := s.undeleted + {key})
      else t.(files := s.files - {key}, gone := s.gone + {key})
  }

  function Apply(s: State, e: Event): State {
    match e
    case CreateProduct(id) =>
      if id in s.ids then s else s.(images := s.images[id := NO_KEY], ids := s.ids + {id})
    case EditProduct(id) => s
    case DeleteProduct(id) =>
      if id !in s.images then s
      else s.(images := s.images - {id}, orphans := s.orphans + Real(s.images[id]))
    case PutFile(_, _, _, _) => ApplyPut(s, e)
    case Snapshot(p) => ApplySnapshot(s, p)
    case SwapKey(p, swap) => ApplySwap(s, p, swap)
    case DeleteFile(p, fails) => ApplyDelete(s, p, fails)
  }

  function Run(es: seq<Event>): State {
    RunFrom(Apply, INIT, es)
  }

  // ---- where the keys are ----

  function Live(images: map<nat, Key>): set<Key> {
    (set id | id in images :: images[id]) - {NO_KEY}
  }

  function Held(uploads: map<nat, Upload>): set<Key> {
    set p | p in uploads :: uploads[p].key
  }

  /** In one of the places where a product's key is, was, or never got to. */
  predicate Settled(s: State, k: Key) {
    k in Live(s.images) || k in s.orphans || k in s.stranded || k in s.partial
  }

  /** Keys whose delete was asked for by mistake, or twice. */
  function Loose(s: State): set<Key> {
    s.lost + s.again
  }

  /** One key's place. It is an object when it is somewhere and was not deleted.
      It is in one settled place at most; unless loose, it is in one place at most
      of all: settled, held by an upload, undeleted, or gone. */
  predicate KeyOk(s: State, k: Key) {
    var held, undeleted, gone := k in Held(s.uploads), k in s.undeleted, k in s.gone;
    && (k in s.files <==> (Settled(s, k) || held || undeleted) && !gone)
    && (Settled(s, k) || held || undeleted || gone || k in Loose(s) ==> k in s.used && k != NO_KEY)
    && (k in Live(s.images) ==> k !in s.orphans && k !in s.stranded && k !in s.partial)
    && (k in s.orphans ==> k !in s.stranded && k !in s.partial)
    && (k in s.partial ==> k !in s.stranded && k !in s.lost)
    && (k in s.again ==> k !in Live(s.images) && k !in s.orphans && k !in s.partial)
    && (k !in Loose(s) ==> !(Settled(s, k) && held) && !(Settled(s, k) && undeleted) && !(Settled(s, k) && gone)
                           && !(held && undeleted) && !(held && gone) && !(undeleted && gone))
  }

  /** Given up by its product, and stranded or asked to be deleted. */
  predicate Displaced(s: State, k: Key) {
    && k !in Live(s.images) && k !in s.orphans && k !in s.partial
    && (k in s.stranded || k in s.gone || k in s.undeleted || k in Held(s.uploads))
  }

  /** A key seen in a product's row is still there, or was displaced since. */
  predicate SeenOne(s: State, product: nat, k: Key) {
    && product in s.ids && k in s.used
    && (product in s.images && k != s.images[product] ==>
          s.images[product] != NO_KEY && (k == NO_KEY || Displaced(s, k)))
  }

  predicate Sees(u: Upload) {
    u.Stored? && u.seen.Saw?
  }

  ghost predicate SeenOk(s: State) {
    forall p :: p in s.uploads && Sees(s.uploads[p]) ==> SeenOne(s, s.uploads[p].product, s.uploads[p].seen.key)
  }

  /** What is seen in a row is not the key of an upload that has yet to swap. */
  ghost predicate SeenApart(uploads: map<nat, Upload>) {
    forall p, q :: p in uploads && q in uploads && uploads[p].Stored? && Sees(uploads[q]) ==>
                     uploads[p].key != uploads[q].seen.key
  }

  ghost predicate OneImageEach(images: map<nat, Key>) {
    forall i, j :: i in images && j in images && i != j && images[i] != NO_KEY ==> images[i] != images[j]
  }

  /** Two uploads hold one key only when it is loose, and it is none that is stored. */
  ghost predicate HeldOnce(uploads: map<nat, Upload>, loose: set<Key>) {
    && (forall p :: p in uploads && uploads[p].Stored? ==> uploads[p].key !in loose)
    && (forall p, q :: p in uploads && q in uploads && p != q && uploads[p].key == uploads[q].key ==>
                       uploads[p].key in loose)
  }

  ghost predicate KeysOk(s: State) {
    NO_KEY in s.used && s.images.Keys <= s.ids && forall k :: KeyOk(s, k)
  }

  ghost predicate Inv(s: State) {
    && OneImageEach(s.images) && HeldOnce(s.uploads, Loose(s)) && SeenApart(s.uploads)
    && KeysOk(s) && SeenOk(s)
  }

  lemma LiveAfterSet(images: map<nat, Key>, id: nat, key: Key)
    requires OneImageEach(images) && key !in Live(images)
    ensures OneImageEach(images[id := key])
    ensures Live(images[id := key]) == Live(images) - (if id in images then {images[id]} else {}) + Real(key)
  {
    var after := images[id := key];
    forall i | i in images && images[i] != NO_KEY
      ensures images[i] in Live(images)
    {
    }
    forall k
      ensures k in Live(after) <==> k in Live(images) - (if id in images then {images[id]} else {}) + Real(key)
    {
      if k in Live(images) && (id in images ==> k != images[id]) {
        var i :| i in images && images[i] == k;
        assert i in after && after[i] == k;
      }
      assert id in after && after[id] == key;
    }
  }

  lemma LiveAfterRemoval(images: map<nat, Key>, id: nat)
    requires OneImageEach(images) && id in images
    ensures OneImageEach(images - {id}) && Live(images - {id}) == Live(images) - {images[id]}
  {
    var after := images - {id};
    forall k | k in Live(images) && k != images[id]
      ensures k in Live(after)
    {
      var i :| i in images && images[i] == k;
      assert i in after && after[i] == k;
    }
  }

  /** Giving p a new key takes its old one away, unless another upload holds it. */
  lemma HeldAfterSet(uploads: map<nat, Upload>, p: nat, u: Upload)
    ensures u.key in Held(uploads[p := u])
    ensures forall k :: k != u.key && (p in uploads ==> k != uploads[p].key) ==>
                          (k in Held(uploads[p := u]) <==> k in Held(uploads))
    ensures Held(uploads[p := u]) <= Held(uploads) + {u.key}
  {
    var after := uploads[p := u];
    assert p in after && after[p] == u;
    forall k | k in Held(uploads) && (p in uploads ==> k != uploads[p].key)
      ensures k in Held(after)
    {
      var q :| q in uploads && uploads[q].key == k;
      assert q in after && after[q].key == k;
    }
  }

  lemma HeldAfterRemoval(uploads: map<nat, Upload>, p: nat)
    requires p in uploads
    ensures Held(uploads - {p}) <= Held(uploads)
    ensures forall k :: k in Held(uploads) && k != uploads[p].key ==> k in Held(uploads - {p})
  {
    var after := uploads - {p};
    forall k | k in Held(uploads) && k != uploads[p].key
      ensures k in Held(after)
    {
      var q :| q in uploads && uploads[q].key == k;
      assert q in after && after[q].key == k;
    }
  }

  /** A key that only p holds is no longer held without p. */
  lemma HeldByOne(uploads: map<nat, Upload>, p: nat, loose: set<Key>)
    requires p in uploads && HeldOnce(uploads, loose) && uploads[p].key !in loose
    ensures uploads[p].key !in Held(uploads - {p})
    ensures forall u: Upload :: u.key != uploads[p].key ==> uploads[p].key !in Held(uploads[p := u])
  {
  }

  lemma HeldOnceAfter(uploads: map<nat, Upload>, p: nat, u: Upload, loose: set<Key>)
    requires HeldOnce(uploads, loose) && (u.Stored? ==> u.key !in loose)
    requires u.key in Held(uploads - {p}) ==> u.key in loose
    ensures HeldOnce(uploads[p := u], loose) && HeldOnce(uploads - {p}, loose)
  {
    forall q | q in uploads && q != p
      ensures uploads[q].key in Held(uploads - {p})
    {
      assert q in uploads - {p};
    }
  }

  /** One more loose key, which no upload has stored. */
  lemma HeldOnceLoose(uploads: map<nat, Upload>, p: nat, k: Key, loose: set<Key>)
    requires HeldOnce(uploads, loose)
    requires forall q :: q in uploads && q != p && uploads[q].Stored? ==> uploads[q].key != k
    ensures HeldOnce(uploads[p := MustDelete(k)], loose + {k})
  {
  }

  lemma HeldOnceWithout(uploads: map<nat, Upload>, p: nat, loose: set<Key>)
    requires HeldOnce(uploads, loose)
    ensures HeldOnce(uploads - {p}, loose)
  {
  }

  lemma SeenApartAfter(uploads: map<nat, Upload>, p: nat, u: Upload)
    requires SeenApart(uploads) && u.MustDelete?
    ensures SeenApart(uploads[p := u]) && SeenApart(uploads - {p})
  {
  }

  predicate StillSeen(s: State, t: State, product: nat, k: Key) {
    SeenOne(s, product, k) ==> SeenOne(t, product, k)
  }

  /** Only upload p changes, so what the others saw only has to stay explained. */
  lemma SeenOkAfter(s: State, t: State, p: nat)
    requires SeenOk(s)
    requires forall q :: q in t.uploads && q != p && Sees(t.uploads[q]) ==>
                           q in s.uploads && t.uploads[q] == s.uploads[q]
    requires p in t.uploads && Sees(t.uploads[p]) ==> SeenOne(t, t.uploads[p].product, t.uploads[p].seen.key)
    requires forall q :: q in s.uploads && q != p && Sees(s.uploads[q]) ==>
                           StillSeen(s, t, s.uploads[q].product, s.uploads[q].seen.key)
    ensures SeenOk(t)
  {
    hide SeenOne;
  }

  lemma PutKeeps(s: State, e: Event)
    requires Inv(s) && e.PutFile?
    ensures Inv(ApplyPut(s, e))
  {
    if e.p !in s.uploads && e.key !in s.used {
      var u, t := Stored(e.product, e.key, NotYet), ApplyPut(s, e);
      assert s.uploads - {e.p} == s.uploads;
      assert KeyOk(s, e.key);
      HeldAfterSet(s.uploads, e.p, u);
      HeldOnceAfter(s.uploads, e.p, u, Loose(s));
      PutApart(s, e.p, u);
      hide Live, Held, OneImageEach, HeldOnce, SeenApart;
      forall k
        ensures KeyOk(t, k)
        ensures k in s.used ==> Displaced(s, k) ==> Displaced(t, k)
      {
        assert KeyOk(s, k);
      }
      SeenOkAfter(s, t, e.p);
    }
  }

  lemma PutApart(s: State, p: nat, u: Upload)
    requires SeenApart(s.uploads) && SeenOk(s) && u.Stored? && u.seen.NotYet? && u.key !in s.used
    ensures SeenApart(s.uploads[p := u])
  {
    hide Displaced;
    forall q | q in s.uploads && Sees(s.uploads[q])
      ensures s.uploads[q].seen.key != u.key
    {
      assert SeenOne(s, s.uploads[q].product, s.uploads[q].seen.key);
    }
  }

  lemma CreateKeeps(s: State, id: nat)
    requires Inv(s)
    ensures Inv(Apply(s, CreateProduct(id)))
  {
    if id !in s.ids {
      LiveAfterSet(s.images, id, NO_KEY);
      hide Live, Held, OneImageEach, HeldOnce, SeenApart;
      var t := Apply(s, CreateProduct(id));
      forall k
        ensures KeyOk(t, k) && (Displaced(s, k) ==> Displaced(t, k))
      {
        assert KeyOk(s, k);
      }
      assert SeenOk(t);
    }
  }

  lemma DeleteKeeps(s: State, id: nat)
    requires Inv(s)
    ensures Inv(Apply(s, DeleteProduct(id)))
  {
    if id in s.images {
      LiveAfterRemoval(s.images, id);
      assert s.images[id] == NO_KEY || s.images[id] in Live(s.images);
      hide Live, Held, OneImageEach, HeldOnce, SeenApart;
      var t := s.(images := s.images - {id}, orphans := s.orphans + Real(s.images[id]));
      forall k
        ensures KeyOk(t, k) && (Displaced(s, k) ==> Displaced(t, k))
      {
        assert KeyOk(s, k);
      }
      assert SeenOk(t);
    }
  }

  lemma AbandonKeeps(s: State, p: nat)
    requires Inv(s) && p in s.uploads && s.uploads[p].Stored?
    ensures Inv(s.(uploads := s.uploads[p := MustDelete(s.uploads[p].key)]))
  {
    var u := MustDelete(s.uploads[p].key);
    assert s.uploads[p].key in Held(s.uploads);
    HeldByOne(s.uploads, p, Loose(s));
    HeldAfterSet(s.uploads, p, u);
    HeldOnceAfter(s.uploads, p, u, Loose(s));
    SeenApartAfter(s.uploads, p, u);
    hide Live, Held, OneImageEach, HeldOnce, SeenApart;
    var t := s.(uploads := s.uploads[p := u]);
    forall k
      ensures KeyOk(t, k) && (Displaced(s, k) ==> Displaced(t, k))
    {
      assert KeyOk(s, k);
    }
    SeenOkAfter(s, t, p);
  }

  lemma SnapshotKeeps(s: State, p: nat)
    requires Inv(s)
    ensures Inv(ApplySnapshot(s, p))
  {
    if p in s.uploads && s.uploads[p].Stored? && s.uploads[p].seen.NotYet? {
      var t := ApplySnapshot(s, p);
      var u := t.uploads[p];
      SameHeld(s.uploads, p, u);
      SnapshotApart(s, p, u);
      if u.seen.Saw? { assert u.seen.key == NO_KEY || u.seen.key in Live(s.images); }
      hide Live, Held, OneImageEach, HeldOnce, SeenApart;
      forall k
        ensures KeyOk(t, k) && (Displaced(s, k) ==> Displaced(t, k))
        ensures k in Live(s.images) ==> k in s.used
      {
        assert KeyOk(s, k);
      }
      SeenOkAfter(s, t, p);
    }
  }

  lemma SameHeld(uploads: map<nat, Upload>, p: nat, u: Upload)
    requires p in uploads && uploads[p].Stored? && u.Stored? && u.key == uploads[p].key
    ensures Held(uploads[p := u]) == Held(uploads)
    ensures forall loose :: HeldOnce(uploads, loose) ==> HeldOnce(uploads[p := u], loose)
  {
    var after := uploads[p := u];
    forall k
      ensures k in Held(after) <==> k in Held(uploads)
    {
      if k in Held(uploads) {
        var q :| q in uploads && uploads[q].key == k;
        assert q in after && after[q].key == k;
      }
      if k in Held(after) {
        var q :| q in after && after[q].key == k;
        assert q in uploads && uploads[q].key == k;
      }
    }
  }

  lemma SnapshotApart(s: State, p: nat, u: Upload)
    requires Inv(s) && p in s.uploads && s.uploads[p].Stored?
    requires u == s.uploads[p].(seen := Look(s.images, s.uploads[p].product))
    ensures SeenApart(s.uploads[p := u])
  {
    forall q | q in s.uploads && s.uploads[q].Stored?
      ensures s.uploads[q].key !in Live(s.images) && s.uploads[q].key != NO_KEY
    {
      assert s.uploads[q].key in Held(s.uploads);
      assert KeyOk(s, s.uploads[q].key);
    }
    if u.seen.Saw? { assert u.seen.key == NO_KEY || u.seen.key in Live(s.images); }
    hide Live, SeenOk, KeysOk, OneImageEach;
  }

  /** A stored key is nowhere else and was seen in no row. */
  lemma StoredAlone(s: State, p: nat)
    requires Inv(s) && p in s.uploads && s.uploads[p].Stored?
    ensures var key := s.uploads[p].key;
            && key in Held(s.uploads) && key !in Loose(s) && key != NO_KEY && key in s.files && key in s.used
            && !Settled(s, key) && key !in s.undeleted && key !in s.gone
            && (forall q :: q in s.uploads && Sees(s.uploads[q]) ==> s.uploads[q].seen.key != key)
  {
    assert s.uploads[p].key in Held(s.uploads);
    assert KeyOk(s, s.uploads[p].key);
  }

  /** The swap committed, its answer was lost: the key goes live, and the upload
      will delete it. */
  lemma LostKeeps(s: State, p: nat)
    requires Inv(s) && p in s.uploads && s.uploads[p].Stored? && s.uploads[p].product in s.images
    ensures Inv(LoseAnswer(s, p, s.uploads[p].product, s.uploads[p].key))
  {
    var product, key := s.uploads[p].product, s.uploads[p].key;
    var before, u := s.images[product], MustDelete(key);
    var t := LoseAnswer(s, p, product, key);
    StoredAlone(s, p);
    assert before == NO_KEY || before in Live(s.images);
    LiveAfterSet(s.images, product, key);
    HeldAfterSet(s.uploads, p, u);
    StoredOnce(s.uploads, p, Loose(s));
    HeldOnceLoose(s.uploads, p, key, Loose(s));
    SeenApartAfter(s.uploads, p, u);
    hide Live, Held, OneImageEach, HeldOnce, SeenApart;
    assert Loose(t) == Loose(s) + {key};
    forall k
      ensures KeyOk(t, k) && (Displaced(s, k) && k != key ==> Displaced(t, k))
      ensures k == before && k != NO_KEY ==> Displaced(t, k)
    {
      assert KeyOk(s, k);
    }
    SeenOkAfter(s, t, p);
  }

  lemma StoredOnce(uploads: map<nat, Upload>, p: nat, loose: set<Key>)
    requires p in uploads && uploads[p].Stored? && HeldOnce(uploads, loose)
    ensures forall q :: q in uploads && q != p && uploads[q].Stored? ==> uploads[q].key != uploads[p].key
  {
  }

  /** The swap returned the key it displaced. */
  lemma ReplaceKeeps(s: State, p: nat)
    requires Inv(s) && p in s.uploads && s.uploads[p].Stored? && s.uploads[p].product in s.images
    ensures var u := s.uploads[p]; Inv(Replace(s, p, u.product, u.key, s.images[u.product]))
  {
    var product, key := s.uploads[p].product, s.uploads[p].key;
    var before := s.images[product];
    var t := Replace(s, p, product, key, before);
    StoredAlone(s, p);
    assert before == NO_KEY || before in Live(s.images);
    assert KeyOk(s, before);
    LiveAfterSet(s.images, product, key);
    HeldByOne(s.uploads, p, Loose(s));
    HeldAfterRemoval(s.uploads, p);
    var u := MustDelete(before);
    HeldAfterSet(s.uploads, p, u);
    HeldOnceAfter(s.uploads, p, u, Loose(s));
    SeenApartAfter(s.uploads, p, u);
    hide Live, Held, OneImageEach, HeldOnce, SeenApart;
    forall k
      ensures KeyOk(t, k) && (Displaced(s, k) && k != key ==> Displaced(t, k))
      ensures k == before && k != NO_KEY ==> Displaced(t, k)
    {
      assert KeyOk(s, k);
    }
    SeenOkAfter(s, t, p);
  }

  /** The swap returned a key that another swap had displaced before. */
  lemma StaleKeeps(s: State, p: nat)
    requires Inv(s) && p in s.uploads && Sees(s.uploads[p]) && s.uploads[p].product in s.images
    requires s.uploads[p].seen.key != s.images[s.uploads[p].product]
    ensures var u := s.uploads[p]; Inv(Replace(s, p, u.product, u.key, u.seen.key))
  {
    var product, key, before := s.uploads[p].product, s.uploads[p].key, s.uploads[p].seen.key;
    var current := s.images[product];
    var t := Replace(s, p, product, key, before);
    StoredAlone(s, p);
    StaleUploads(s, p);
    assert SeenOne(s, product, before);
    assert current in Live(s.images);
    LiveAfterSet(s.images, product, key);
    HeldByOne(s.uploads, p, Loose(s));
    HeldAfterRemoval(s.uploads, p);
    HeldAfterSet(s.uploads, p, MustDelete(before));
    hide Live, Held, OneImageEach, HeldOnce, SeenApart;
    forall k
      ensures KeyOk(t, k) && (Displaced(s, k) && k != key ==> Displaced(t, k))
      ensures k == current ==> Displaced(t, k)
    {
      assert KeyOk(s, k);
    }
    hide KeyOk, Displaced;
    SeenOkAfter(s, t, p);
  }

  /** The uploads after a stale swap. */
  lemma StaleUploads(s: State, p: nat)
    requires Inv(s) && p in s.uploads && Sees(s.uploads[p]) && s.uploads[p].product in s.images
    requires s.uploads[p].seen.key != s.images[s.uploads[p].product]
    ensures var u := s.uploads[p];
            var t := Replace(s, p, u.product, u.key, u.seen.key);
            HeldOnce(t.uploads, Loose(t)) && SeenApart(t.uploads) && Loose(t) == Loose(s) + Real(u.seen.key)
  {
    var before := s.uploads[p].seen.key;
    StoredAlone(s, p);
    hide SeenOk, KeysOk, OneImageEach, Live, Held;
    HeldOnceLoose(s.uploads, p, before, Loose(s));
    HeldOnceWithout(s.uploads, p, Loose(s));
    SeenApartAfter(s.uploads, p, MustDelete(before));
    hide HeldOnce, SeenApart;
    assert Loose(s) + {} == Loose(s);
  }

  lemma SwapKeeps(s: State, p: nat, swap: Outcome)
    requires Inv(s)
    ensures Inv(ApplySwap(s, p, swap))
  {
    hide Inv, Replace, LoseAnswer;
    if p in s.uploads && s.uploads[p].Stored? {
      var product, seen := s.uploads[p].product, s.uploads[p].seen;
      if swap.Fails? || seen.Missing? || product !in s.images {
        AbandonKeeps(s, p);
      } else if swap.AnswerLost? {
        LostKeeps(s, p);
      } else if seen.NotYet? || seen.key == s.images[product] {
        ReplaceKeeps(s, p);
      } else {
        StaleKeeps(s, p);
      }
    }
  }

  lemma DeleteFileKeeps(s: State, p: nat, fails: bool)
    requires Inv(s)
    ensures Inv(ApplyDelete(s, p, fails))
  {
    if p in s.uploads && s.uploads[p].MustDelete? {
      var key := s.uploads[p].key;
      assert key in Held(s.uploads);
      HeldAfterRemoval(s.uploads, p);
      if key !in Loose(s) { HeldByOne(s.uploads, p, Loose(s)); }
      HeldOnceWithout(s.uploads, p, Loose(s));
      SeenApartAfter(s.uploads, p, s.uploads[p]);
      hide Live, Held, OneImageEach, HeldOnce, SeenApart;
      var t := ApplyDelete(s, p, fails);
      forall k
        ensures KeyOk(t, k) && (Displaced(s, k) ==> Displaced(t, k))
      {
        assert KeyOk(s, k);
      }
      SeenOkAfter(s, t, p);
    }
  }

  lemma ApplyKeeps(s: State, e: Event)
    requires Inv(s)
    ensures Inv(Apply(s, e))
  {
    hide Inv, ApplyPut, ApplySnapshot, ApplySwap, ApplyDelete;
    match e {
      case CreateProduct(id) => CreateKeeps(s, id);
      case EditProduct(_) =>
      case DeleteProduct(id) => DeleteKeeps(s, id);
      case PutFile(_, _, _, _) => PutKeeps(s, e);
      case Snapshot(p) => SnapshotKeeps(s, p);
      case SwapKey(p, swap) => SwapKeeps(s, p, swap);
      case DeleteFile(p, fails) => DeleteFileKeeps(s, p, fails);
    }
  }

  lemma InvFrom(s: State, es: seq<Event>)
    requires Inv(s)
    ensures Inv(RunFrom(Apply, s, es))
  {
    hide Apply, Inv;
    forall t, e | Inv(t)
      ensures Inv(Apply(t, e))
    {
      ApplyKeeps(t, e);
    }
    RunKeeps(Apply, t => Inv(t), s, es);
  }

  lemma RunInv(es: seq<Event>)
    ensures Inv(Run(es))
  {
    InitHolds();
    InvFrom(INIT, es);
  }

  lemma InitHolds()
    ensures Inv(INIT)
  {
  }

  // ---- main results: images ----

  /** In every run, however uploads, edits and deletes interleave and whichever
      statements and deletes fail: no two products share a key, and a product's
      key names an existing object exactly when it is not the key of a committed
      swap that was reported as an error and then deleted. */
  lemma ImagesExistIff(es: seq<Event>, id: nat, other: nat)
    requires id in Run(es).images && Run(es).images[id] != NO_KEY
    ensures var s := Run(es);
            var key := s.images[id];
            && (key in s.files <==> !(key in s.lost && key in s.gone))
            && (other in s.images && other != id ==> s.images[other] != key)
  {
    hide Run, Held;
    RunInv(es);
    var s := Run(es);
    assert s.images[id] in Live(s.images);
    hide Live;
    assert KeyOk(s, s.images[id]);
  }

  predicate NoLostAnswers(es: seq<Event>) {
    forall i :: 0 <= i < |es| ==> es[i].SwapKey? ==> !es[i].swap.AnswerLost?
  }

  lemma {:induction false} NothingLost(s: State, es: seq<Event>)
    requires NoLostAnswers(es)
    ensures RunFrom(Apply, s, es).lost == s.lost
    decreases |es|
  {
    if es != [] {
      assert es[0].SwapKey? ==> !es[0].swap.AnswerLost?;
      NothingLost(Apply(s, es[0]), es[1..]);
    }
  }

  /** Without lost answers every image key names an existing object. */
  lemma ImagesExist(es: seq<Event>, id: nat)
    requires NoLostAnswers(es) && id in Run(es).images && Run(es).images[id] != NO_KEY
    ensures Run(es).images[id] in Run(es).files
  {
    ImagesExistIff(es, id, id);
    NothingLost(INIT, es);
  }

  /** Every upload to an existing product can go wrong in this one way: the swap
      commits, its answer is lost, and the delete that follows works. */
  lemma LostSwapDangles(s: State, p: nat, product: nat, key: Key)
    requires Inv(s) && p !in s.uploads && key !in s.used && product in s.images
    ensures var es := [PutFile(p, product, key, Complete), SwapKey(p, AnswerLost), DeleteFile(p, false)];
            var t := RunFrom(Apply, s, es);
            product in t.images && t.images[product] == key && key !in t.files
  {
    ThreeSteps(Apply, s, PutFile(p, product, key, Complete), SwapKey(p, AnswerLost), DeleteFile(p, false));
    hide RunFrom, Inv;
  }

  // ---- main results: objects ----

  /** At every moment: the objects are the keys in the six places, less those
      deleted; the settled places are apart; and apart from loose keys
      all places are apart, the deleted keys included. */
  lemma ObjectsConserved(es: seq<Event>)
    ensures var s := Run(es);
            var live, held := Live(s.images), Held(s.uploads);
            && s.files == live + held + s.orphans + s.undeleted + s.partial + s.stranded - s.gone
            && live !! s.orphans !! s.stranded !! s.partial
            && held - Loose(s) !! live + s.orphans + s.stranded + s.partial
               !! s.undeleted - Loose(s) !! s.gone - Loose(s)
  {
    hide Run, Live, Held;
    RunInv(es);
    var s := Run(es);
    var live, held := Live(s.images), Held(s.uploads);
    forall k
      ensures k in s.files <==> k in live + held + s.orphans + s.undeleted + s.partial + s.stranded - s.gone
    {
      assert KeyOk(s, k);
    }
    PlacesApart(s, live + s.orphans + s.stranded + s.partial, held);
    SettledApart(s, live);
  }

  lemma SettledApart(s: State, live: set<Key>)
    requires live == Live(s.images) && forall k :: KeyOk(s, k)
    ensures live !! s.orphans !! s.stranded !! s.partial
  {
    hide Live;
    forall k | k in live
      ensures k !in s.orphans && k !in s.stranded && k !in s.partial
    {
      assert KeyOk(s, k);
    }
    forall k | k in s.orphans
      ensures k !in s.stranded && k !in s.partial
    {
      assert KeyOk(s, k);
    }
    forall k | k in s.stranded
      ensures k !in s.partial
    {
      assert KeyOk(s, k);
    }
  }

  lemma PlacesApart(s: State, settled: set<Key>, held: set<Key>)
    requires held == Held(s.uploads) && settled == Live(s.images) + s.orphans + s.stranded + s.partial
    requires forall k :: KeyOk(s, k)
    ensures held - Loose(s) !! settled !! s.undeleted - Loose(s) !! s.gone - Loose(s)
  {
    hide Live, Held;
    forall k | k in held - Loose(s)
      ensures k !in settled && k !in s.undeleted && k !in s.gone
    {
      assert KeyOk(s, k);
    }
    forall k | k in settled && k !in Loose(s)
      ensures k !in s.undeleted && k !in s.gone
    {
      assert KeyOk(s, k);
    }
    forall k | k in s.undeleted - Loose(s)
      ensures k !in s.gone
    {
      assert KeyOk(s, k);
    }
  }

  predicate DeletesSucceed(es: seq<Event>) {
    forall i :: 0 <= i < |es| ==> es[i].DeleteFile? ==> !es[i].fails
  }

  lemma {:induction false} NothingUndeleted(s: State, es: seq<Event>)
    requires DeletesSucceed(es)
    ensures RunFrom(Apply, s, es).undeleted == s.undeleted
    decreases |es|
  {
    if es != [] {
      assert es[0].DeleteFile? ==> !es[0].fails;
      NothingUndeleted(Apply(s, es[0]), es[1..]);
    }
  }

  /** The key of a put that fails after creating its file, if the event is one. */
  function Broken(s: State, e: Event): set<Key> {
    if e.PutFile? && e.p !in s.uploads && e.key !in s.used && LeavesFile(e.put) && !e.put.Complete? then {e.key} else {}
  }

  /** The keys of puts in the run that failed after creating their file. */
  function BrokenPuts(s: State, es: seq<Event>): set<Key>
    decreases |es|
  {
    if es == [] then {} else Broken(s, es[0]) + BrokenPuts(Apply(s, es[0]), es[1..])
  }

  lemma {:induction false} PartialIsBroken(s: State, es: seq<Event>)
    ensures RunFrom(Apply, s, es).partial == s.partial + BrokenPuts(s, es)
    decreases |es|
  {
    if es != [] {
      PartialIsBroken(Apply(s, es[0]), es[1..]);
      hide RunFrom, BrokenPuts;
      PartialStep(s, es[0]);
    }
  }

  lemma PartialStep(s: State, e: Event)
    ensures Apply(s, e).partial == s.partial + Broken(s, e)
  {
  }

  /** When all uploads have finished and no delete failed, the objects are the
      live keys and the last keys of deleted products exactly when no put broke
      off, every key that a swap displaced without returning it was deleted, and
      no live or last key was. */
  lemma QuiescentExactly(es: seq<Event>)
    requires Run(es).uploads == map[] && DeletesSucceed(es)
    ensures var s := Run(es);
            s.files == Live(s.images) + s.orphans
            <==> BrokenPuts(INIT, es) == {} && s.stranded <= s.gone && Live(s.images) + s.orphans !! s.gone
  {
    RunInv(es);
    NothingUndeleted(INIT, es);
    PartialIsBroken(INIT, es);
    var s := Run(es);
    assert Held(s.uploads) == {};
    hide Run, Live, Held, RunFrom, BrokenPuts;
    forall k
      ensures k in s.files <==> Settled(s, k) && k !in s.gone
      ensures !(k in Live(s.images) + s.orphans && (k in s.stranded || k in s.partial))
      ensures !(k in s.partial && k in s.gone)
    {
      assert KeyOk(s, k);
    }
    SameObjectsIff(s);
  }

  lemma SameObjectsIff(s: State)
    requires forall k :: k in s.files <==> Settled(s, k) && k !in s.gone
    requires forall k :: !(k in Live(s.images) + s.orphans && (k in s.stranded || k in s.partial))
    requires forall k :: !(k in s.partial && k in s.gone)
    ensures s.files == Live(s.images) + s.orphans
            <==> s.partial == {} && s.stranded <= s.gone && Live(s.images) + s.orphans !! s.gone
  {
    hide Live;
    if s.files == Live(s.images) + s.orphans {
      forall k
        ensures k !in s.partial
        ensures (k in s.stranded ==> k in s.gone) && (k in Live(s.images) + s.orphans ==> k !in s.gone)
      {
        assert k in s.files <==> k in Live(s.images) + s.orphans;
      }
    } else {
      var k :| k in s.files <==> k !in Live(s.images) + s.orphans;
    }
  }

  // ---- overlapping swaps ----

  /** A swap of a product whose key changed after the swap's snapshot. */
  predicate StaleSwap(s: State, e: Event) {
    && e.SwapKey? && e.swap.Works? && e.p in s.uploads && Sees(s.uploads[e.p])
    && s.uploads[e.p].product in s.images && s.uploads[e.p].seen.key != s.images[s.uploads[e.p].product]
  }

  predicate AnyStale(s: State, es: seq<Event>)
    decreases |es|
  {
    es != [] && (StaleSwap(s, es[0]) || AnyStale(Apply(s, es[0]), es[1..]))
  }

  /** Stranded, and no delete was asked for. */
  function Forgotten(s: State): set<Key> {
    s.stranded - s.gone - s.undeleted - Held(s.uploads)
  }

  /** A stale swap leaves the key it displaced forgotten. */
  lemma StaleForgets(s: State, e: Event)
    requires Inv(s) && s.lost == {} && StaleSwap(s, e)
    ensures s.images[s.uploads[e.p].product] in Forgotten(Apply(s, e))
  {
    var p := e.p;
    var product, key, before := s.uploads[p].product, s.uploads[p].key, s.uploads[p].seen.key;
    var current := s.images[product];
    StoredAlone(s, p);
    assert SeenOne(s, product, before);
    assert current in Live(s.images);
    assert KeyOk(s, current);
    HeldAfterRemoval(s.uploads, p);
    HeldAfterSet(s.uploads, p, MustDelete(before));
    hide Live, Held, Inv, KeyOk, SeenOne;
  }

  /** Nothing else makes or ends the forgetting of keys. */
  lemma OthersKeepForgotten(s: State, e: Event)
    requires Inv(s) && s.lost == {} && !StaleSwap(s, e) && (e.SwapKey? ==> !e.swap.AnswerLost?)
    ensures Apply(s, e).stranded == s.stranded && Forgotten(s) <= Forgotten(Apply(s, e))
  {
    if e.SwapKey? {
      SwapKeepsForgotten(s, e.p, e.swap);
    } else if e.Snapshot? {
      if ApplySnapshot(s, e.p) != s { SameHeld(s.uploads, e.p, ApplySnapshot(s, e.p).uploads[e.p]); }
    } else if e.DeleteFile? {
      if e.p in s.uploads { HeldAfterRemoval(s.uploads, e.p); }
    } else if e.PutFile? {
      assert KeyOk(s, e.key);
      HeldAfterSet(s.uploads, e.p, Stored(e.product, e.key, NotYet));
      hide Held, Live, KeyOk;
    }
  }

  lemma SwapKeepsForgotten(s: State, p: nat, swap: Outcome)
    requires Inv(s) && s.lost == {} && !StaleSwap(s, SwapKey(p, swap)) && !swap.AnswerLost?
    ensures ApplySwap(s, p, swap).stranded == s.stranded && Forgotten(s) <= Forgotten(ApplySwap(s, p, swap))
  {
    if p in s.uploads && s.uploads[p].Stored? {
      var product, key := s.uploads[p].product, s.uploads[p].key;
      StoredAlone(s, p);
      HeldAfterSet(s.uploads, p, MustDelete(key));
      HeldAfterRemoval(s.uploads, p);
      if product in s.images {
        var current := s.images[product];
        assert current == NO_KEY || current in Live(s.images);
        assert KeyOk(s, current);
        HeldAfterSet(s.uploads, p, MustDelete(current));
      }
      hide Live, Held, Inv, KeyOk;
    }
  }

  lemma {:induction false} ForgottenIff(s: State, es: seq<Event>)
    requires Inv(s) && s.lost == {} && NoLostAnswers(es)
    ensures AnyStale(s, es) || Forgotten(s) != {} ==> Forgotten(RunFrom(Apply, s, es)) != {}
    ensures !AnyStale(s, es) ==> RunFrom(Apply, s, es).stranded == s.stranded
    decreases |es|
  {
    if es != [] {
      var e := es[0];
      assert e.SwapKey? ==> !e.swap.AnswerLost?;
      ApplyKeeps(s, e);
      OneStep(Apply, s, e);
      NothingLost(s, [e]);
      hide Inv, Apply, Forgotten, StaleSwap;
      ForgottenIff(Apply(s, e), es[1..]);
      if StaleSwap(s, e) { StaleForgets(s, e); } else { OthersKeepForgotten(s, e); }
    }
  }

  /** Without lost answers: exactly when no put broke off after creating its file
      and no swap of a product overlapped another. */
  lemma QuiescentObjects(es: seq<Event>)
    requires Run(es).uploads == map[] && DeletesSucceed(es) && NoLostAnswers(es)
    ensures Run(es).files == Live(Run(es).images) + Run(es).orphans
            <==> BrokenPuts(INIT, es) == {} && !AnyStale(INIT, es)
  {
    QuiescentExactly(es);
    NothingLost(INIT, es);
    NothingUndeleted(INIT, es);
    InitHolds();
    ForgottenIff(INIT, es);
    RunInv(es);
    var s := Run(es);
    assert Held(s.uploads) == {};
    hide Run, Live, Held, RunFrom, BrokenPuts, AnyStale;
    forall k
      ensures !(k in Live(s.images) + s.orphans && k in s.gone)
    {
      assert KeyOk(s, k);
    }
  }

  /** Two uploads to one product whose swaps overlap: both are stored and both
      statements have taken their snapshots before either updates the row. */
  function BothSeen(s: State, p: nat, q: nat, product: nat, k1: Key, k2: Key): State {
    var t := Apply(Apply(s, PutFile(p, product, k1, Complete)), PutFile(q, product, k2, Complete));
    Apply(Apply(t, Snapshot(p)), Snapshot(q))
  }

  function BothSwapped(s: State, p: nat, q: nat): State {
    Apply(Apply(s, SwapKey(p, Works)), SwapKey(q, Works))
  }

  function BothDeleted(s: State, p: nat, q: nat): State {
    Apply(Apply(s, DeleteFile(p, false)), DeleteFile(q, false))
  }

  lemma SeenBoth(s: State, p: nat, q: nat, product: nat, k1: Key, k2: Key)
    requires p != q && p !in s.uploads && q !in s.uploads && product in s.images
    requires k1 != k2 && k1 !in s.used && k2 !in s.used
    ensures var t, seen := BothSeen(s, p, q, product, k1, k2), Saw(s.images[product]);
            && t.uploads == s.uploads[p := Stored(product, k1, seen)][q := Stored(product, k2, seen)]
            && t.images == s.images && t.stranded == s.stranded && t.gone == s.gone && t.undeleted == s.undeleted
            && k1 in t.files
  {
    var s1 := Apply(s, PutFile(p, product, k1, Complete));
    var s2 := Apply(s1, PutFile(q, product, k2, Complete));
    var s3 := Apply(s2, Snapshot(p));
    assert s2.uploads == s.uploads[p := Stored(product, k1, NotYet)][q := Stored(product, k2, NotYet)];
    assert s3.uploads[q] == Stored(product, k2, NotYet);
  }

  lemma SwappedBoth(s: State, p: nat, q: nat, product: nat, k1: Key, k2: Key, seen: Key)
    requires p != q && p in s.uploads && q in s.uploads && product in s.images && s.images[product] == seen
    requires s.uploads[p] == Stored(product, k1, Saw(seen)) && s.uploads[q] == Stored(product, k2, Saw(seen))
    requires k1 != k2 && k1 != seen && k2 != seen && k1 != NO_KEY
    ensures var t, rest := BothSwapped(s, p, q), s.uploads - {p} - {q};
            && t.images == s.images[product := k2] && t.files == s.files && k1 in t.stranded
            && t.gone == s.gone && t.undeleted == s.undeleted
            && t.uploads - {p} - {q} == rest
            && if seen == NO_KEY then p !in t.uploads && q !in t.uploads
               else p in t.uploads && q in t.uploads && t.uploads[p] == MustDelete(seen) == t.uploads[q]
  {
    var s1 := Apply(s, SwapKey(p, Works));
    assert s1.images == s.images[product := k1];
    assert q in s1.uploads && s1.uploads[q] == s.uploads[q];
  }

  lemma DeletedBoth(s: State, p: nat, q: nat, seen: Key)
    requires p != q
    requires if seen == NO_KEY then p !in s.uploads && q !in s.uploads
             else p in s.uploads && q in s.uploads && s.uploads[p] == MustDelete(seen) == s.uploads[q]
    ensures var t := BothDeleted(s, p, q);
            && t.uploads == s.uploads - {p} - {q} && t.images == s.images && t.stranded == s.stranded
            && s.files - {seen} <= t.files && t.gone <= s.gone + {seen} && t.undeleted == s.undeleted
  {
  }

  /** Both succeed, the product shows the second image, and the first stays
      without any upload that will delete it. */
  lemma OverlapStrands(s: State, p: nat, q: nat, product: nat, k1: Key, k2: Key)
    requires Inv(s) && p != q && p !in s.uploads && q !in s.uploads && product in s.images
    requires k1 != k2 && k1 !in s.used && k2 !in s.used
    ensures var t := BothDeleted(BothSwapped(BothSeen(s, p, q, product, k1, k2), p, q), p, q);
            && t.uploads == s.uploads && product in t.images && t.images[product] == k2
            && k1 in t.files && k1 in Forgotten(t)
  {
    var seen := s.images[product];
    assert seen == NO_KEY || seen in Live(s.images);
    assert KeyOk(s, seen) && KeyOk(s, k1);
    var s1 := BothSeen(s, p, q, product, k1, k2);
    var s2 := BothSwapped(s1, p, q);
    hide Inv, KeyOk, Live, BothSeen, BothSwapped, BothDeleted;
    SeenBoth(s, p, q, product, k1, k2);
    SwappedBoth(s1, p, q, product, k1, k2, seen);
    DeletedBoth(s2, p, q, seen);
    assert s1.uploads - {p} - {q} == s.uploads;
    hide Held;
  }

  /** What a broken put leaves stays: whatever happens later, its object exists
      and no product ever refers to it. */
  lemma BrokenPutStays(es: seq<Event>, p: nat, product: nat, key: Key, put: PutOutcome, later: seq<Event>)
    requires p !in Run(es).uploads && key !in Run(es).used && LeavesFile(put) && !put.Complete?
    ensures var t := Run(es + ([PutFile(p, product, key, put)] + later));
            key in t.files && key !in Live(t.images) && key !in t.orphans && key !in Held(t.uploads)
  {
    var e := PutFile(p, product, key, put);
    RunConcat(Apply, INIT, es, [e] + later);
    RunConcat(Apply, Run(es), [e], later);
    OneStep(Apply, Run(es), e);
    PartialIsBroken(Apply(Run(es), e), later);
    RunInv(es + ([e] + later));
    hide Live, Held, RunFrom, BrokenPuts;
    assert KeyOk(Run(es + ([e] + later)), key);
  }

  /** The three steps of one upload, run without interruption, do what
      UploadImage does to the two stores. */
  lemma WholeUpload(s: State, p: nat, product: nat, key: Key, put: PutOutcome, swap: Outcome,
                      fails: bool)
    requires Inv(s) && p !in s.uploads && key !in s.used
    ensures var t := RunFrom(Apply, s, [PutFile(p, product, key, put), SwapKey(p, swap), DeleteFile(p, fails)]);
            var swapped := put.Complete? && !swap.Fails? && product in s.images;
            && t.uploads == s.uploads
            && t.images == (if swapped then s.images[product := key] else s.images)
            && t.files == if !put.Complete? then s.files + (if LeavesFile(put) then {key} else {})
                          else if fails then s.files + {key}
                          else if swapped && swap.Works? then s.files + {key} - ({s.images[product]} - {NO_KEY})
                          else s.files
  {
    ThreeSteps(Apply, s, PutFile(p, product, key, put), SwapKey(p, swap), DeleteFile(p, fails));
    assert KeyOk(s, key);
    if product in s.images && s.images[product] != NO_KEY {
      assert s.images[product] in Live(s.images);
      assert KeyOk(s, s.images[product]);
    }
    hide RunFrom, Inv, Live, Held, KeyOk;
    PutBack(s.uploads, p, Stored(product, key, NotYet), MustDelete(key));
    if product in s.images {
      PutBack(s.uploads, p, Stored(product, key, NotYet), MustDelete(s.images[product]));
    }
  }

  /** Creating, editing and deleting a product do to the two stores what the
      repository's statements do. */
  lemma WholeProductCalls(s: State, id: nat)
    ensures var t := Apply(s, CreateProduct(id));
            t.files == s.files && t.images == if id in s.ids then s.images else s.images[id := NO_KEY]
    ensures Apply(s, EditProduct(id)).images == s.images && Apply(s, EditProduct(id)).files == s.files
    ensures var t := Apply(s, DeleteProduct(id)); t.files == s.files && t.images == s.images - {id}
  {
    assert id !in s.images ==> s.images - {id} == s.images;
  }

  lemma PutBack(m: map<nat, Upload>, p: nat, u: Upload, v: Upload)
    requires p !in m
    ensures m[p := u] - {p} == m && m[p := u][p := v] - {p} == m
  {
  }
}
