/** When interleaved order calls keep the transition table of
    api/internal/orders/repo.go: exactly which writes break it, in every run. */
module OrderPaths {
  import opened Text
  import opened Orders
  import opened OrderRuns
  import opened Runs

  // ---- one status write ----

  /** The status that the event adds to the history of an existing order. */
  function Writes(s: State, e: Event, id: nat): Option<Status> {
    if id !in s.log then None
    else
      match e
      case ExpireStale(now) => if id in s.db.orders && Stale(s.db.orders[id], now) then Some(Expired) else None
      case Step(p, _) => if p in s.procs then LocalWrites(s, s.procs[p], id) else None
      case _ => None
  }

  function LocalWrites(s: State, l: Local, id: nat): Option<Status> {
    match l
    case AdminReady(tenant, i, _, to) => if i == id && Owned(s.db, tenant, id) then Some(to) else None
    case UploadPaid(i, tenant, status) =>
      if i == id && Owned(s.db, tenant, id) && status == Pending then Some(PaymentReceived) else None
    case WebhookPaid(i, tenant) => if i == id && Owned(s.db, tenant, id) then Some(PaymentAccepted) else None
    case _ => None
  }

  /** The guard a writer could evaluate: what it writes is allowed from the
      status stored at that moment. */
  predicate WriteAllowed(s: State, e: Event, id: nat) {
    Writes(s, e, id).Some? ==> id in s.db.orders && Allowed(s.db.orders[id].status, Writes(s, e, id).value)
  }

  function Grown(h: seq<Status>, w: Option<Status>): seq<Status> {
    if w.None? then h else h + [w.value]
  }

  lemma StepGrows(s: State, p: nat, newPay: nat, id: nat)
    requires id in s.log && p in s.procs
    ensures var t := StepCall(s, p, newPay);
            id in t.log && t.log[id] == Grown(s.log[id], LocalWrites(s, s.procs[p], id))
  {
    hide Transitions, AddPayment;
    PaymentLog(s, p, newPay, 0, "", 0, None);
    var l := s.procs[p];
    if l.UploadRead? {
      PaymentLog(s, p, newPay, l.id, l.key, l.total, Some(UploadPaid(l.id, l.tenant, l.status)));
    } else if l.ChargeRead? {
      PaymentLog(s, p, newPay, l.id, "", l.total, None);
    }
  }

  lemma PaymentLog(s: State, p: nat, newPay: nat, id: nat, key: string, amount: int, next: Option<Local>)
    ensures AddPayment(s, p, newPay, id, key, amount, next).log == s.log
  {
  }

  /** Every event adds to a history what Writes says, and nothing else. */
  lemma ApplyGrows(s: State, e: Event, id: nat)
    ensures id in s.log ==> id in Apply(s, e).log && Apply(s, e).log[id] == Grown(s.log[id], Writes(s, e, id))
    ensures id !in s.log && id in Apply(s, e).log ==> Apply(s, e).log[id] == [Pending]
  {
    if e.Step? && e.p in s.procs {
      hide StepCall, LocalWrites;
      if id in s.log { StepGrows(s, e.p, e.newPay, id); }
      StepAddsNone(s, e.p, e.newPay);
    } else {
      hide StepCall, LocalWrites, Transitions, InsertOrder;
    }
  }

  lemma StepAddsNone(s: State, p: nat, newPay: nat)
    requires p in s.procs
    ensures StepCall(s, p, newPay).log.Keys == s.log.Keys
  {
    hide Transitions;
  }

  lemma PathGrowsIff(h: seq<Status>, status: Status)
    requires h != []
    ensures Path(h + [status]) <==> Path(h) && Allowed(h[|h| - 1], status)
  {
    hide Allowed;
    assert (h + [status])[..|h|] == h;
    if Path(h + [status]) { PathPrefix(h + [status]); }
    if Path(h) { PathGrows(h, status); }
  }

  /** One event keeps a history on the table exactly when what it writes is
      allowed from the stored status; in any state the calls can reach. */
  lemma EventKeepsTableIff(s: State, e: Event, id: nat)
    requires Inv(s) && id in s.log
    ensures id in Apply(s, e).log && (Path(Apply(s, e).log[id]) <==> Path(s.log[id]) && WriteAllowed(s, e, id))
  {
    ApplyGrows(s, e, id);
    if Writes(s, e, id).Some? { WritesToStored(s, e, id); }
    HistoryStarts(s.log[id]);
    hide Apply, Writes, Path, Allowed, HistoryOk;
    if Writes(s, e, id).Some? { PathGrowsIff(s.log[id], Writes(s, e, id).value); }
  }

  lemma WritesToStored(s: State, e: Event, id: nat)
    requires Inv(s) && Writes(s, e, id).Some?
    ensures id in s.db.orders && id in s.log && s.log[id] != [] && s.log[id][|s.log[id]| - 1] == s.db.orders[id].status
  {
    hide HistoriesOk, LocalsOk, PaymentsOk;
  }

  // ---- whole runs ----

  ghost predicate AllWritesAllowed(es: seq<Event>, id: nat) {
    forall i :: 0 <= i < |es| ==> WriteAllowed(Run(es[..i]), es[i], id)
  }

  lemma RunLast(es: seq<Event>)
    requires es != []
    ensures Run(es) == Apply(Run(es[..|es| - 1]), es[|es| - 1])
  {
    EndStep(Apply, INIT, es);
  }

  lemma AllWritesLast(es: seq<Event>, id: nat)
    requires es != []
    ensures var n := |es| - 1;
            AllWritesAllowed(es, id) <==> AllWritesAllowed(es[..n], id) && WriteAllowed(Run(es[..n]), es[n], id)
  {
    hide WriteAllowed, Run;
    var n := |es| - 1;
    assert forall i :: 0 <= i < n ==> es[..n][..i] == es[..i] && es[..n][i] == es[i];
  }

  /** Main result. In every run, webhook included, an order's history follows
      the transition table exactly when every write to it was allowed from the
      status stored at that moment. */
  lemma {:induction false} TableKeptIff(es: seq<Event>, id: nat)
    ensures id in Run(es).log ==> (Path(Run(es).log[id]) <==> AllWritesAllowed(es, id))
    ensures id !in Run(es).log ==> AllWritesAllowed(es, id)
  {
    if es != [] {
      hide Apply, Run, Path, Writes, Inv, AllWritesAllowed;
      var front, last := es[..|es| - 1], es[|es| - 1];
      TableKeptIff(front, id);
      RunLast(es);
      AllWritesLast(es, id);
      RunInv(front);
      var s := Run(front);
      ApplyGrows(s, last, id);
      if id in s.log {
        EventKeepsTableIff(s, last, id);
      } else {
        NoWritesYet(s, last, id);
        SinglePath();
      }
    }
  }

  lemma NoWritesYet(s: State, e: Event, id: nat)
    requires id !in s.log
    ensures WriteAllowed(s, e, id)
  {
  }

  lemma RunInv(es: seq<Event>)
    ensures Inv(Run(es)) && Run(es).totals.Keys == Run(es).log.Keys
  {
    RunExtends(INIT, es);
  }

  // ---- runs without the webhook ----

  predicate WebhookFree(es: seq<Event>) {
    forall i :: 0 <= i < |es| ==> es[i].Start? ==> !es[i].call.WebhookCall?
  }

  predicate NoWebhookLocals(s: State) {
    forall p :: p in s.procs ==> !s.procs[p].WebhookRead? && !s.procs[p].WebhookPaid?
  }

  lemma WebhookFreeStep(s: State, e: Event)
    requires NoWebhookLocals(s) && (e.Start? ==> !e.call.WebhookCall?)
    ensures NoWebhookLocals(Apply(s, e))
  {
    hide Transitions, InsertOrder, StepCall;
    if e.Create? {
      CreatedProcs(s, e);
    } else if e.Step? && e.p in s.procs {
      StepProcs(s, e.p, e.newPay);
    }
  }

  lemma CreatedProcs(s: State, e: Event)
    requires e.Create?
    ensures Apply(s, e).procs == s.procs
  {
    hide InsertOrder;
  }

  lemma StepProcs(s: State, p: nat, newPay: nat)
    requires NoWebhookLocals(s) && p in s.procs
    ensures NoWebhookLocals(StepCall(s, p, newPay))
  {
    hide Transitions, SetStatus;
  }

  lemma {:induction false} WebhookFreeRun(es: seq<Event>)
    requires WebhookFree(es)
    ensures NoWebhookLocals(Run(es))
  {
    if es != [] {
      hide Apply, Run, NoWebhookLocals;
      var n := |es| - 1;
      WebhookFreeRun(es[..n]);
      RunLast(es);
      WebhookFreeStep(Run(es[..n]), es[n]);
    }
  }

  /** A call that writes a status although another one was stored since its read. */
  predicate Overtaken(s: State, e: Event, id: nat) {
    && e.Step? && e.p in s.procs && Writes(s, e, id).Some? && id in s.db.orders
    && match s.procs[e.p]
       case AdminReady(_, _, from, _) => s.db.orders[id].status != from
       case UploadPaid(_, _, status) => s.db.orders[id].status != status
       case _ => false
  }

  /** Without the webhook a write can break the table only when it was overtaken:
      every call checks the status it read. */
  lemma OnlyOvertakenBreak(s: State, e: Event, id: nat)
    requires Inv(s) && NoWebhookLocals(s) && !Overtaken(s, e, id)
    ensures WriteAllowed(s, e, id)
  {
    hide HistoriesOk, OrdersOk, PaymentsOk, HistoryOk;
    if e.Step? && e.p in s.procs {
      assert LocalOk(s.procs[e.p], s.log, s.totals);
    }
  }

  /** Without the webhook, a history follows the table exactly when every call
      that was overtaken between its read and its write still wrote a status
      allowed from the one stored. */
  lemma WebhookFreeTableIff(es: seq<Event>, id: nat)
    requires WebhookFree(es) && id in Run(es).log
    ensures Path(Run(es).log[id]) <==>
            forall i :: 0 <= i < |es| && Overtaken(Run(es[..i]), es[i], id) ==> WriteAllowed(Run(es[..i]), es[i], id)
  {
    hide Run, Path, Overtaken, Inv, NoWebhookLocals, WriteAllowed;
    TableKeptIff(es, id);
    forall i | 0 <= i < |es| && !Overtaken(Run(es[..i]), es[i], id)
      ensures WriteAllowed(Run(es[..i]), es[i], id)
    {
      RunInv(es[..i]);
      WebhookFreeRun(es[..i]);
      OnlyOvertakenBreak(Run(es[..i]), es[i], id);
    }
  }

  // ---- two schedules in which a call is overtaken ----

  /** A proof upload that reads, then a sweep of stale orders, then the upload's
      writes: the table is kept exactly when the sweep did not expire the order. */
  lemma StaleUploadIff(s: State, id: nat, key: string, newPay: nat, now: int)
    requires SerialOk(s) && id in s.db.orders && newPay !in s.db.payments
    ensures var t := StaleUpload(s, id, key, newPay, now);
            id in t.log && (Path(t.log[id]) <==> !Stale(s.db.orders[id], now))
  {
    if Stale(s.db.orders[id], now) {
      UploadRevivesExpired(s, id, key, newPay, now);
    } else {
      var o := s.db.orders[id];
      FreshRead(s, id, key, newPay, now);
      var s3 := Apply(Apply(Apply(s, Start(0, UploadCall(id, key))), Step(0, newPay)), ExpireStale(now));
      hide Path, SerialOk, HistoryOk, LocalOk, StartCall;
      FreshWrite(s3, id, key, newPay, o);
      if o.status == Pending {
        SerialLast(s, id);
        PathGrowsIff(s.log[id], PaymentReceived);
      }
      SerialLast(s, id);
    }
  }

  lemma SerialLast(s: State, id: nat)
    requires SerialOk(s) && id in s.db.orders
    ensures id in s.log && s.log[id] != [] && s.log[id][|s.log[id]| - 1] == s.db.orders[id].status && Path(s.log[id])
  {
    hide HistoriesOk, LocalsOk, PaymentsOk, Path;
  }

  lemma FreshRead(s: State, id: nat, key: string, newPay: nat, now: int)
    requires SerialOk(s) && id in s.db.orders && !Stale(s.db.orders[id], now)
    ensures var t := Apply(Apply(Apply(s, Start(0, UploadCall(id, key))), Step(0, newPay)), ExpireStale(now));
            var o := s.db.orders[id];
            && 0 in t.procs && t.procs[0] == UploadRead(id, key, o.total, o.tenant, o.status)
            && t.db.payments == s.db.payments && id in t.db.orders && t.db.orders[id] == o
            && id in s.log && id in t.log && t.log[id] == s.log[id]
  {
    hide HistoryOk, Path, LocalOk;
  }

  lemma FreshWrite(s: State, id: nat, key: string, newPay: nat, o: Order)
    requires 0 in s.procs && s.procs[0] == UploadRead(id, key, o.total, o.tenant, o.status)
    requires id in s.db.orders && s.db.orders[id] == o && newPay !in s.db.payments && id in s.log
    ensures var t := Apply(Apply(s, Step(0, newPay)), Step(0, newPay));
            id in t.log && t.log[id] == if o.status == Pending then s.log[id] + [PaymentReceived] else s.log[id]
  {
    hide Transitions;
  }

  /** Two admins who both read before either writes, each allowed by what was
      read: the second write breaks the table unless it is allowed after the first. */
  function TwoAdmins(s: State, tenant: nat, id: nat, to1: Status, to2: Status): State {
    var s1 := Apply(s, Start(0, AdminCall(tenant, id, to1)));
    var s2 := Apply(s1, Start(1, AdminCall(tenant, id, to2)));
    var s3 := Apply(s2, Step(0, 0));
    Apply(s3, Step(1, 0))
  }

  lemma TwoAdminsIff(s: State, tenant: nat, id: nat, to1: Status, to2: Status)
    requires SerialOk(s) && Owned(s.db, tenant, id)
    requires Allowed(s.db.orders[id].status, to1) && Allowed(s.db.orders[id].status, to2)
    ensures var t := TwoAdmins(s, tenant, id, to1, to2);
            id in t.log && (Path(t.log[id]) <==> Allowed(to1, to2))
  {
    SerialLast(s, id);
    TwoAdminsWrite(s, tenant, id, to1, to2);
    hide SerialOk, TwoAdmins, Path, Allowed;
    PathGrowsIff(s.log[id], to1);
    PathGrowsIff(s.log[id] + [to1], to2);
  }

  lemma TwoAdminsWrite(s: State, tenant: nat, id: nat, to1: Status, to2: Status)
    requires s.procs == map[] && Owned(s.db, tenant, id) && id in s.log
    requires Allowed(s.db.orders[id].status, to1) && Allowed(s.db.orders[id].status, to2)
    ensures var t := TwoAdmins(s, tenant, id, to1, to2);
            id in t.log && t.log[id] == s.log[id] + [to1] + [to2]
  {
    var status := s.db.orders[id].status;
    NotToItself(status, to1);
    NotToItself(status, to2);
    hide Transitions;
    var s2 := Apply(Apply(s, Start(0, AdminCall(tenant, id, to1))), Start(1, AdminCall(tenant, id, to2)));
    assert s2.procs == map[0 := AdminReady(tenant, id, status, to1), 1 := AdminReady(tenant, id, status, to2)];
    assert s2.db == s.db && s2.log == s.log;
    var s3 := Apply(s2, Step(0, 0));
    assert s3.log[id] == s.log[id] + [to1] && s3.procs == map[1 := AdminReady(tenant, id, status, to2)];
    assert Owned(s3.db, tenant, id);
  }

  lemma NotToItself(from: Status, to: Status)
    requires Allowed(from, to)
    ensures from != to
  {
  }

  // ---- serial runs, all at once ----

  /** In serial runs without the webhook: a terminal status ends the history, a
      shipped history has the one shape, and receipts equal rejections plus 0 or 1. */
  lemma SerialHistory(acts: seq<Act>, id: nat) returns (rounds: nat)
    requires NoWebhook(acts) && id in Run(EventsOf(acts)).log
    ensures var h := Run(EventsOf(acts)).log[id];
            && h != [] && h[0] == Pending && Path(h)
            && (forall i :: 0 <= i < |h| && Terminal(h[i]) ==> i == |h| - 1)
            && Count(h, PaymentReceived) == Count(h, Rejected) + OpenReceipts(h)
            && (h[|h| - 1] == Shipped ==> h == [Pending, PaymentReceived] + Rounds(rounds) + [PaymentAccepted, Shipped])
  {
    hide Run, EventsOf, Path, Terminal, Count, OpenReceipts, Rounds;
    SerialPaths(acts, id);
    var h := Run(EventsOf(acts)).log[id];
    forall i | 0 <= i < |h| && Terminal(h[i])
      ensures i == |h| - 1
    {
      TerminalAbsorbs(h, i);
    }
    Receipts(h);
    rounds := 0;
    if h[|h| - 1] == Shipped { rounds := ShippedShape(h); }
  }
}
