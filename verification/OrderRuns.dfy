/** Every run of the order API: calls of api/internal/orders/service.go,
    api/internal/orders/handler.go and api/internal/enhancements/module.go that
    interleave between their SQL statements. */
module OrderRuns {
  import opened Text
  import opened Orders
  import opened Runs

  datatype Call =
    | AdminCall(tenant: nat, id: nat, to: Status)
    | UploadCall(id: nat, key: string)
    | WebhookCall(pay: nat, id: nat, paid: bool)
    | ChargeCall(tenant: nat, id: nat)
    | EditCall(tenant: nat, id: nat, details: string)

  /** A call between two of its statements, with what it has read so far. */
  datatype Local =
    | AdminReady(tenant: nat, id: nat, from: Status, to: Status)
    | UploadOpen(id: nat, key: string, total: int)
    | UploadRead(id: nat, key: string, total: int, tenant: nat, status: Status)
    | UploadPaid(id: nat, tenant: nat, status: Status)
    | WebhookRead(id: nat, tenant: nat, pay: nat)
    | WebhookPaid(id: nat, tenant: nat)
    | ChargeRead(id: nat, total: int)
    | EditRead(tenant: nat, id: nat, details: string, total: int)

  datatype Event =
    | Create(id: nat, tenant: nat, details: string, expires: int, items: seq<Item>)
    | ExpireStale(now: int)
    | Delete(tenant: nat, id: nat)
    | VerifyPayment(tenant: nat, pay: nat, accept: bool)
    | Start(p: nat, call: Call)
    | Step(p: nat, newPay: nat)
    | Abandon(p: nat)

  /** The database, the calls under way, and for every order ever created the
      statuses it has had and the total it was created with. */
  datatype State = State(db: Db, procs: map<nat, Local>, log: map<nat, seq<Status>>, totals: map<nat, int>)

  const INIT := State(Db(map[], map[]), map[], map[], map[])

  function Idle(s: State, p: nat): State {
    s.(procs := s.procs - {p})
  }

  function Put(s: State, p: nat, l: Local): State {
    s.(procs := s.procs[p := l])
  }

  function WriteStatus(s: State, tenant: nat, id: nat, status: Status): State {
    if Owned(s.db, tenant, id) && id in s.log
    then s.(db := SetStatus(s.db, tenant, id, status), log := s.log[id := s.log[id] + [status]])
    else s
  }

  function WriteExpired(s: State, now: int): State {
    s.(db := Expire(s.db, now),
       log := map id | id in s.log ::
         if id in s.db.orders && Stale(s.db.orders[id], now) then s.log[id] + [Expired] else s.log[id])
  }

  function StartCall(s: State, p: nat, call: Call): State {
    var orders := s.db.orders;
    match call
    case AdminCall(tenant, id, to) =>
      if Owned(s.db, tenant, id) && orders[id].status != to && Allowed(orders[id].status, to)
      then Put(s, p, AdminReady(tenant, id, orders[id].status, to)) else s
    case UploadCall(id, key) => if id in orders then Put(s, p, UploadOpen(id, key, orders[id].total)) else s
    case WebhookCall(pay, id, paid) =>
      if id in orders && paid then Put(s, p, WebhookRead(id, orders[id].tenant, pay)) else s
    case ChargeCall(tenant, id) => if Owned(s.db, tenant, id) then Put(s, p, ChargeRead(id, orders[id].total)) else s
    case EditCall(tenant, id, details) =>
      if Owned(s.db, tenant, id) then Put(s, p, EditRead(tenant, id, details, orders[id].total)) else s
  }

  function AddPayment(s: State, p: nat, newPay: nat, id: nat, key: string, amount: int, next: Option<Local>): State {
    match InsertPayment(s.db, newPay, id, key, amount)
    case None => Idle(s, p)
    case Some(db) =>
      var t := s.(db := db);
      match next case None => Idle(t, p) case Some(l) => Put(t, p, l)
  }

  /** The next statement of a call under way. */
  function StepCall(s: State, p: nat, newPay: nat): State
    requires p in s.procs
  {
    match s.procs[p]
    case AdminReady(tenant, id, _, to) => Idle(WriteStatus(s, tenant, id, to), p)
    case UploadOpen(id, key, total) =>
      if id in s.db.orders
      then Put(s, p, UploadRead(id, key, total, s.db.orders[id].tenant, s.db.orders[id].status)) else Idle(s, p)
    case UploadRead(id, key, total, tenant, status) =>
      AddPayment(s, p, newPay, id, key, total, Some(UploadPaid(id, tenant, status)))
    case UploadPaid(id, tenant, status) =>
      Idle(if status == Pending then WriteStatus(s, tenant, id, PaymentReceived) else s, p)
    case WebhookRead(id, tenant, pay) =>
      Put(s.(db := SetPayment(s.db, tenant, pay, Verified)), p, WebhookPaid(id, tenant))
    case WebhookPaid(id, tenant) => Idle(WriteStatus(s, tenant, id, PaymentAccepted), p)
    case ChargeRead(id, total) => AddPayment(s, p, newPay, id, "", total, None)
    case EditRead(tenant, id, details, total) => Idle(s.(db := SetDetails(s.db, tenant, id, details, total)), p)
  }

  function Apply(s: State, e: Event): State {
    match e
    case Create(id, tenant, details, expires, items) =>
      if id in s.log then s
      else (match InsertOrder(s.db, id, tenant, details, expires, items)
            case None => s
            case Some(db) =>
              s.(db := db, log := s.log[id := [Pending]], totals := s.totals[id := db.orders[id].total]))
    case ExpireStale(now) => WriteExpired(s, now)
    case Delete(tenant, id) => s.(db := DeleteOrder(s.db, tenant, id))
    case VerifyPayment(tenant, pay, accept) =>
      s.(db := SetPayment(s.db, tenant, pay, if accept then Verified else PaymentRejected))
    case Start(p, call) => if p in s.procs then s else StartCall(s, p, call)
    case Step(p, newPay) => if p in s.procs then StepCall(s, p, newPay) else s
    case Abandon(p) => Idle(s, p)
  }

  function Run(es: seq<Event>): State {
    RunFrom(Apply, INIT, es)
  }

  // ---- the invariant ----

  ghost predicate CausedBy(h: seq<Status>, i: int, cause: Status) {
    exists j :: 0 <= j < i && j < |h| && h[j] == cause
  }

  /** A history starts pending, is never pending again, ships only after an
      acceptance and rejects only after a receipt. */
  ghost predicate HistoryOk(h: seq<Status>) {
    h != [] && h[0] == Pending
    && forall i :: 0 < i < |h| ==>
         h[i] != Pending
         && (h[i] == Shipped ==> CausedBy(h, i, PaymentAccepted))
         && (h[i] == Rejected ==> CausedBy(h, i, PaymentReceived))
  }

  lemma HistoryGrows(h: seq<Status>, status: Status)
    requires HistoryOk(h) && status != Pending
    requires status == Shipped ==> PaymentAccepted in h
    requires status == Rejected ==> PaymentReceived in h
    ensures HistoryOk(h + [status])
  {
    var g := h + [status];
    forall i | 0 < i < |g|
      ensures g[i] != Pending
      ensures g[i] == Shipped ==> CausedBy(g, i, PaymentAccepted)
      ensures g[i] == Rejected ==> CausedBy(g, i, PaymentReceived)
    {
      if i < |h| {
        assert g[i] == h[i];
        if h[i] == Shipped {
          var j :| 0 <= j < i && j < |h| && h[j] == PaymentAccepted;
          assert g[j] == PaymentAccepted;
        }
        if h[i] == Rejected {
          var j :| 0 <= j < i && j < |h| && h[j] == PaymentReceived;
          assert g[j] == PaymentReceived;
        }
      } else {
        if status == Shipped {
          var j :| 0 <= j < |h| && h[j] == PaymentAccepted;
          assert g[j] == PaymentAccepted;
        }
        if status == Rejected {
          var j :| 0 <= j < |h| && h[j] == PaymentReceived;
          assert g[j] == PaymentReceived;
        }
      }
    }
  }

  ghost predicate LocalOk(l: Local, log: map<nat, seq<Status>>, totals: map<nat, int>) {
    match l
    case AdminReady(_, id, from, to) => id in log && from in log[id] && Allowed(from, to)
    case UploadOpen(id, _, total) => id in totals && totals[id] == total
    case UploadRead(id, _, total, _, _) => id in totals && totals[id] == total
    case UploadPaid(_, _, _) => true
    case WebhookRead(_, _, _) => true
    case WebhookPaid(_, _) => true
    case ChargeRead(id, total) => id in totals && totals[id] == total
    case EditRead(_, id, _, total) => id in totals && totals[id] == total
  }

  ghost predicate HistoriesOk(log: map<nat, seq<Status>>) {
    forall id :: id in log ==> HistoryOk(log[id])
  }

  /** A stored row shows the end of its history and its first total. */
  predicate RowOk(o: Order, id: nat, log: map<nat, seq<Status>>, totals: map<nat, int>) {
    && id in log && log[id] != [] && log[id][|log[id]| - 1] == o.status
    && id in totals && totals[id] == o.total
  }

  ghost predicate OrdersOk(db: Db, log: map<nat, seq<Status>>, totals: map<nat, int>) {
    forall id :: id in db.orders ==> RowOk(db.orders[id], id, log, totals)
  }

  ghost predicate PaymentsOk(db: Db, totals: map<nat, int>) {
    forall pay :: pay in db.payments ==>
      db.payments[pay].order in db.orders
      && db.payments[pay].order in totals && db.payments[pay].amount == totals[db.payments[pay].order]
  }

  ghost predicate LocalsOk(procs: map<nat, Local>, log: map<nat, seq<Status>>, totals: map<nat, int>) {
    forall p :: p in procs ==> LocalOk(procs[p], log, totals)
  }

  ghost predicate Inv(s: State) {
    HistoriesOk(s.log) && OrdersOk(s.db, s.log, s.totals) && PaymentsOk(s.db, s.totals)
    && LocalsOk(s.procs, s.log, s.totals)
  }

  /** Nothing is forgotten: histories grow at the end, totals are kept. */
  ghost predicate Extends(s: State, t: State) {
    (forall id :: id in s.log ==> id in t.log && s.log[id] <= t.log[id])
    && (forall id :: id in s.totals ==> id in t.totals && s.totals[id] == t.totals[id])
    && s.totals.Keys == s.log.Keys && t.totals.Keys == t.log.Keys
  }

  lemma LocalsKept(s: State, t: State)
    requires LocalsOk(s.procs, s.log, s.totals) && Extends(s, t)
    ensures LocalsOk(s.procs, t.log, t.totals)
  {
    hide HistoryOk, Allowed;
    forall p | p in s.procs ensures LocalOk(s.procs[p], t.log, t.totals) {
      var l := s.procs[p];
      if l.AdminReady? {
        assert l.from in s.log[l.id];
        assert s.log[l.id] <= t.log[l.id];
      }
    }
  }

  lemma WriteRows(s: State, tenant: nat, id: nat, status: Status)
    requires OrdersOk(s.db, s.log, s.totals) && PaymentsOk(s.db, s.totals)
    ensures var t := WriteStatus(s, tenant, id, status);
            OrdersOk(t.db, t.log, t.totals) && PaymentsOk(t.db, t.totals)
  {
  }

  lemma WriteKeeps(s: State, tenant: nat, id: nat, status: Status)
    requires Inv(s) && s.totals.Keys == s.log.Keys && status != Pending
    requires status == Shipped ==> id in s.log && PaymentAccepted in s.log[id]
    requires status == Rejected ==> id in s.log && PaymentReceived in s.log[id]
    ensures var t := WriteStatus(s, tenant, id, status); Inv(t) && Extends(s, t) && t.procs == s.procs
  {
    hide HistoryOk, LocalsOk, OrdersOk, PaymentsOk;
    var t := WriteStatus(s, tenant, id, status);
    WriteRows(s, tenant, id, status);
    if t != s {
      HistoryGrows(s.log[id], status);
      LocalsKept(s, t);
    }
  }

  lemma ExpireRows(s: State, now: int)
    requires OrdersOk(s.db, s.log, s.totals) && PaymentsOk(s.db, s.totals)
    ensures var t := WriteExpired(s, now);
            OrdersOk(t.db, t.log, t.totals) && PaymentsOk(t.db, t.totals)
  {
    ExpireOrders(s, now);
    hide Stale, OrdersOk;
  }

  lemma ExpireOrders(s: State, now: int)
    requires OrdersOk(s.db, s.log, s.totals)
    ensures var t := WriteExpired(s, now); OrdersOk(t.db, t.log, t.totals)
  {
    hide Stale, Expire, WriteExpired;
    var t := WriteExpired(s, now);
    forall id
      ensures id in t.db.orders ==> RowOk(t.db.orders[id], id, t.log, t.totals)
    {
      ExpireOne(s, now, id);
    }
  }

  /** The sweep, seen from one order. */
  lemma ExpireOne(s: State, now: int, id: nat)
    requires id in s.db.orders ==> RowOk(s.db.orders[id], id, s.log, s.totals)
    ensures var t := WriteExpired(s, now);
            id in t.db.orders ==> id in s.db.orders && RowOk(t.db.orders[id], id, t.log, t.totals)
  {
    hide Stale;
  }

  lemma ExpireKeeps(s: State, now: int)
    requires Inv(s) && s.totals.Keys == s.log.Keys
    ensures var t := WriteExpired(s, now); Inv(t) && Extends(s, t)
  {
    hide HistoryOk, LocalsOk, OrdersOk, PaymentsOk, Expire, Stale;
    var t := WriteExpired(s, now);
    ExpireRows(s, now);
    forall id | id in t.log ensures HistoryOk(t.log[id]) {
      HistoryGrows(s.log[id], Expired);
    }
    LocalsKept(s, t);
  }

  lemma NewHistory()
    ensures HistoryOk([Pending])
  {
  }

  lemma CreateRows(s: State, e: Event)
    requires OrdersOk(s.db, s.log, s.totals) && PaymentsOk(s.db, s.totals) && s.totals.Keys == s.log.Keys && e.Create?
    ensures var t := Apply(s, e);
            OrdersOk(t.db, t.log, t.totals) && PaymentsOk(t.db, t.totals) && t.procs == s.procs
  {
    hide InsertOrder, StartCall, StepCall, WriteExpired, DeleteOrder, SetPayment, Idle;
    CreatedRow(s.db, e);
    var t := Apply(s, e);
    assert OrdersOk(t.db, t.log, t.totals) by {
      hide PaymentsOk;
    }
    hide OrdersOk;
  }

  lemma CreatedRow(db: Db, e: Event)
    requires e.Create?
    ensures var r := InsertOrder(db, e.id, e.tenant, e.details, e.expires, e.items);
            r.Some? ==> e.id !in db.orders && e.id in r.value.orders && r.value.orders[e.id].status == Pending
                        && r.value.orders == db.orders[e.id := r.value.orders[e.id]] && r.value.payments == db.payments
  {
  }

  lemma CreateKeeps(s: State, e: Event)
    requires Inv(s) && s.totals.Keys == s.log.Keys && e.Create?
    ensures Inv(Apply(s, e)) && Extends(s, Apply(s, e))
  {
    hide HistoryOk, LocalsOk, OrdersOk, PaymentsOk, InsertOrder;
    NewHistory();
    CreateRows(s, e);
    LocalsKept(s, Apply(s, e));
  }

  lemma StartKeeps(s: State, p: nat, call: Call)
    requires Inv(s) && s.totals.Keys == s.log.Keys
    ensures Inv(StartCall(s, p, call)) && Extends(s, StartCall(s, p, call))
  {
    hide HistoryOk, Allowed;
  }

  lemma PaymentKeeps(s: State, p: nat, newPay: nat, id: nat, key: string, amount: int, next: Option<Local>)
    requires Inv(s) && s.totals.Keys == s.log.Keys
    requires id in s.totals && s.totals[id] == amount
    requires next.Some? ==> LocalOk(next.value, s.log, s.totals)
    ensures var t := AddPayment(s, p, newPay, id, key, amount, next); Inv(t) && Extends(s, t)
  {
    hide HistoryOk, LocalOk;
  }

  lemma EditKeeps(s: State, tenant: nat, id: nat, details: string, total: int)
    requires Inv(s) && s.totals.Keys == s.log.Keys && id in s.totals && s.totals[id] == total
    ensures var t := s.(db := SetDetails(s.db, tenant, id, details, total)); Inv(t) && Extends(s, t)
  {
    hide HistoryOk, LocalOk;
  }

  lemma PaymentStatusKeeps(s: State, tenant: nat, pay: nat, status: PaymentStatus)
    requires Inv(s) && s.totals.Keys == s.log.Keys
    ensures var t := s.(db := SetPayment(s.db, tenant, pay, status)); Inv(t) && Extends(s, t)
  {
    hide HistoryOk, LocalOk;
  }

  lemma IdleKeeps(s: State, p: nat)
    requires Inv(s)
    ensures Inv(Idle(s, p))
  {
    hide HistoryOk, LocalOk;
  }

  lemma PutKeeps(s: State, p: nat, l: Local)
    requires Inv(s) && LocalOk(l, s.log, s.totals)
    ensures Inv(Put(s, p, l))
  {
    hide HistoryOk, LocalOk;
  }

  lemma StepKeeps(s: State, p: nat, newPay: nat)
    requires Inv(s) && s.totals.Keys == s.log.Keys && p in s.procs
    ensures Inv(StepCall(s, p, newPay)) && Extends(s, StepCall(s, p, newPay))
  {
    hide HistoryOk, HistoriesOk, OrdersOk, PaymentsOk, WriteStatus, AddPayment;
    var l := s.procs[p];
    assert LocalOk(l, s.log, s.totals);
    match l {
      case AdminReady(tenant, id, from, to) =>
        WriteKeeps(s, tenant, id, to);
        IdleKeeps(WriteStatus(s, tenant, id, to), p);
      case UploadOpen(id, key, total) =>
        IdleKeeps(s, p);
      case UploadRead(id, key, total, tenant, status) =>
        PaymentKeeps(s, p, newPay, id, key, total, Some(UploadPaid(id, tenant, status)));
      case UploadPaid(id, tenant, status) =>
        WriteKeeps(s, tenant, id, PaymentReceived);
        IdleKeeps(WriteStatus(s, tenant, id, PaymentReceived), p);
        IdleKeeps(s, p);
      case WebhookRead(id, tenant, pay) =>
        PaymentStatusKeeps(s, tenant, pay, Verified);
        PutKeeps(s.(db := SetPayment(s.db, tenant, pay, Verified)), p, WebhookPaid(id, tenant));
      case WebhookPaid(id, tenant) =>
        WriteKeeps(s, tenant, id, PaymentAccepted);
        IdleKeeps(WriteStatus(s, tenant, id, PaymentAccepted), p);
      case ChargeRead(id, total) =>
        PaymentKeeps(s, p, newPay, id, "", total, None);
      case EditRead(tenant, id, details, total) =>
        EditKeeps(s, tenant, id, details, total);
        IdleKeeps(s.(db := SetDetails(s.db, tenant, id, details, total)), p);
    }
  }

  lemma DeleteKeeps(s: State, tenant: nat, id: nat)
    requires Inv(s)
    ensures Inv(s.(db := DeleteOrder(s.db, tenant, id)))
  {
    hide HistoryOk, LocalOk;
  }

  lemma ApplyKeeps(s: State, e: Event)
    requires Inv(s) && s.totals.Keys == s.log.Keys
    ensures Inv(Apply(s, e)) && Extends(s, Apply(s, e))
  {
    hide Inv, StartCall, StepCall, WriteExpired, DeleteOrder, SetPayment, InsertOrder;
    match e {
      case Create(_, _, _, _, _) => CreateKeeps(s, e);
      case ExpireStale(now) => ExpireKeeps(s, now);
      case Delete(tenant, id) => DeleteKeeps(s, tenant, id);
      case VerifyPayment(tenant, pay, accept) =>
        PaymentStatusKeeps(s, tenant, pay, if accept then Verified else PaymentRejected);
      case Start(p, call) => StartKeeps(s, p, call);
      case Step(p, newPay) => if p in s.procs { StepKeeps(s, p, newPay); }
      case Abandon(p) => IdleKeeps(s, p);
    }
  }

  lemma ExtendsOn(s: State, t: State, u: State)
    requires Extends(s, t) && Extends(t, u)
    ensures Extends(s, u)
  {
    forall id | id in s.log
      ensures id in u.log && s.log[id] <= u.log[id]
    {
      assert s.log[id] <= t.log[id] <= u.log[id];
    }
  }

  lemma RunExtends(s: State, es: seq<Event>)
    requires Inv(s) && s.totals.Keys == s.log.Keys
    ensures Inv(RunFrom(Apply, s, es)) && Extends(s, RunFrom(Apply, s, es))
  {
    assert Extends(s, s);
    hide Inv, Apply;
    forall t, e | Inv(t) && Extends(s, t)
      ensures Inv(Apply(t, e)) && Extends(s, Apply(t, e))
    {
      ApplyKeeps(t, e);
      hide Extends;
      ExtendsOn(s, t, Apply(t, e));
    }
    RunKeeps(Apply, t => Inv(t) && Extends(s, t), s, es);
  }

  // ---- main results for every interleaving ----

  /** Whatever calls interleave, webhook included: an order starts pending and
      never returns to it; it was accepted before it shipped, and received
      before it was rejected; and its stored status is the last one written. */
  lemma EveryInterleaving(es: seq<Event>, id: nat, i: nat)
    requires id in Run(es).log && i < |Run(es).log[id]|
    ensures var h := Run(es).log[id];
            h[0] == Pending && (i > 0 ==> h[i] != Pending)
            && (h[i] == Shipped ==> CausedBy(h, i, PaymentAccepted))
            && (h[i] == Rejected ==> CausedBy(h, i, PaymentReceived))
            && (id in Run(es).db.orders ==> h[|h| - 1] == Run(es).db.orders[id].status)
  {
    RunExtends(INIT, es);
    assert HistoryOk(Run(es).log[id]);
  }

  /** A stored total never changes, whatever happens later, and every payment
      belongs to an existing order and is for exactly its total. */
  lemma TotalsFixed(es: seq<Event>, later: seq<Event>, id: nat, pay: nat)
    ensures id in Run(es).db.orders && id in Run(es + later).db.orders
            ==> Run(es).db.orders[id].total == Run(es + later).db.orders[id].total
    ensures pay in Run(es).db.payments
            ==> Run(es).db.payments[pay].order in Run(es).db.orders
                && Run(es).db.payments[pay].amount == Run(es).db.orders[Run(es).db.payments[pay].order].total
  {
    hide HistoryOk, LocalOk, Apply, RunFrom;
    RunExtends(INIT, es);
    RunConcat(Apply, INIT, es, later);
    RunExtends(Run(es), later);
  }

  // ---- histories that follow the transition table ----

  predicate Path(h: seq<Status>) {
    forall i :: 0 <= i < |h| - 1 ==> Allowed(h[i], h[i + 1])
  }

  predicate Terminal(status: Status) {
    status == Shipped || status == Expired || status == Cancelled
  }

  lemma TerminalAbsorbs(h: seq<Status>, i: nat)
    requires Path(h) && i < |h| && Terminal(h[i])
    ensures i == |h| - 1
  {
    if i < |h| - 1 {
      hide Path;
      PathStep(h, i);
    }
  }

  lemma PathStep(h: seq<Status>, i: nat)
    requires Path(h) && i < |h| - 1
    ensures Allowed(h[i], h[i + 1])
  {
  }

  function Rounds(k: nat): seq<Status> {
    if k == 0 then [] else Rounds(k - 1) + [Rejected, PaymentReceived]
  }

  lemma LastStep(h: seq<Status>, before: Status, last: Status)
    requires Path(h) && |h| >= 2 && h[|h| - 2] == before && h[|h| - 1] == last
    ensures Allowed(before, last) && Path(h[..|h| - 1])
  {
    var i := |h| - 2;
    assert Allowed(h[i], h[i + 1]);
  }

  /** No transition leads back to pending. */
  lemma PendingFirst(h: seq<Status>, i: nat)
    requires Path(h) && i < |h| && h[i] == Pending
    ensures i == 0
  {
    if i > 0 {
      hide Path;
      PathStep(h, i - 1);
    }
  }

  /** A path that ends in three given statuses, cut before the last two. */
  lemma LastTwoSteps(h: seq<Status>)
    requires Path(h) && |h| >= 3
    ensures var n := |h|; Allowed(h[n - 3], h[n - 2]) && Allowed(h[n - 2], h[n - 1]) && Path(h[..n - 2])
    ensures h == h[..|h| - 2] + [h[|h| - 2], h[|h| - 1]]
  {
    LastStep(h, h[|h| - 2], h[|h| - 1]);
    LastStep(h[..|h| - 1], h[|h| - 3], h[|h| - 2]);
  }

  lemma MoreRounds(g: seq<Status>, k: nat)
    requires g == [Pending, PaymentReceived] + Rounds(k)
    ensures g + [Rejected, PaymentReceived] == [Pending, PaymentReceived] + Rounds(k + 1)
  {
  }

  lemma {:induction false} ReceivedShape(h: seq<Status>) returns (k: nat)
    requires Path(h) && h != [] && h[0] == Pending && h[|h| - 1] == PaymentReceived
    ensures h == [Pending, PaymentReceived] + Rounds(k)
    decreases |h|
  {
    hide Path, Rounds;
    var n := |h|;
    LastStep(h, h[n - 2], h[n - 1]);
    if h[n - 2] == Pending {
      PendingFirst(h, n - 2);
      k := 0;
      NoRounds();
      PairIs(h);
    } else {
      LastTwoSteps(h);
      assert h[n - 2] == Rejected && h[n - 3] == PaymentReceived && h[..n - 2][0] == Pending;
      hide Allowed;
      k := ReceivedShape(h[..n - 2]);
      MoreRounds(h[..n - 2], k);
      k := k + 1;
    }
  }

  lemma PairIs(h: seq<Status>)
    requires |h| == 2
    ensures h == [h[0], h[1]]
  {
  }

  lemma NoRounds()
    ensures [Pending, PaymentReceived] == [Pending, PaymentReceived] + Rounds(0)
  {
  }

  /** Every shipped history is: pending, received, (rejected, received)*,
      accepted, shipped. */
  lemma ShippedShape(h: seq<Status>) returns (k: nat)
    requires Path(h) && h != [] && h[0] == Pending && h[|h| - 1] == Shipped
    ensures h == [Pending, PaymentReceived] + Rounds(k) + [PaymentAccepted, Shipped]
  {
    LastStep(h, h[|h| - 2], h[|h| - 1]);
    LastTwoSteps(h);
    k := ReceivedShape(h[..|h| - 2]);
  }

  function Count(h: seq<Status>, status: Status): nat {
    if h == [] then 0 else Count(h[..|h| - 1], status) + if h[|h| - 1] == status then 1 else 0
  }

  /** Receipts beyond rejections, as the history fixes them. */
  function OpenReceipts(h: seq<Status>): nat {
    if h == [] || PaymentReceived !in h || h[|h| - 1] == Rejected then 0 else 1
  }

  lemma CountLast(init: seq<Status>, last: Status, status: Status)
    ensures Count(init + [last], status) == Count(init, status) + if last == status then 1 else 0
  {
    assert (init + [last])[..|init|] == init;
  }

  lemma OpenAfter(init: seq<Status>, last: Status)
    requires Path(init + [last]) && init != [] && init[0] == Pending
    ensures OpenReceipts(init + [last]) + (if last == Rejected then 1 else 0)
         == OpenReceipts(init) + (if last == PaymentReceived then 1 else 0)
  {
    var h := init + [last];
    var before := init[|init| - 1];
    LastStep(h, before, last);
    assert PaymentReceived in h <==> PaymentReceived in init || last == PaymentReceived;
    if before == Pending {
      PendingFirst(init, |init| - 1);
      assert init == [Pending];
    }
  }

  /** Receipts are rejections, plus one unless the order never had a receipt or
      stands rejected. */
  lemma {:induction false} Receipts(h: seq<Status>)
    requires Path(h) && h != [] && h[0] == Pending
    ensures Count(h, PaymentReceived) == Count(h, Rejected) + OpenReceipts(h)
    decreases |h|
  {
    var n := |h|;
    if n == 1 {
      assert h == [Pending] && h[..0] == [];
    } else {
      hide Path, OpenReceipts;
      var init, last := h[..n - 1], h[n - 1];
      assert h == init + [last];
      PathPrefix(h);
      Receipts(init);
      OpenAfter(init, last);
      CountLast(init, last, PaymentReceived);
      CountLast(init, last, Rejected);
    }
  }

  lemma PathPrefix(h: seq<Status>)
    requires Path(h) && h != []
    ensures Path(h[..|h| - 1])
  {
  }

  // ---- serial runs ----

  /** One whole call: its first read and up to three more statements. */
  function Whole(call: Call, newPay: nat): seq<Event> {
    [Start(0, call), Step(0, newPay), Step(0, newPay), Step(0, newPay)]
  }

  datatype Act = Atomic(e: Event) | CallOf(call: Call, newPay: nat)

  predicate IsAtomic(e: Event) {
    !e.Start? && !e.Step? && !e.Abandon?
  }

  function EventsOf(acts: seq<Act>): seq<Event> {
    if acts == [] then []
    else (match acts[0]
          case Atomic(e) => if IsAtomic(e) then [e] else []
          case CallOf(call, newPay) => Whole(call, newPay)) + EventsOf(acts[1..])
  }

  /** What the service does in one call, as specified for its methods. */
  function ServiceCall(db: Db, call: Call, newPay: nat): Db {
    match call
    case AdminCall(tenant, id, to) => AdminUpdate(db, tenant, id, to)
    case UploadCall(id, key) =>
      if id in db.orders then UploadProof(db, newPay, id, key, db.orders[id].total) else db
    case WebhookCall(pay, id, paid) => if paid then GatewayPaid(db, pay, id) else db
    case ChargeCall(tenant, id) => Charge(db, tenant, newPay, id)
    case EditCall(tenant, id, details) => EditDetails(db, tenant, id, details)
  }

  function AfterWhole(s: State, call: Call, newPay: nat): State {
    var s1 := Apply(s, Start(0, call));
    var s2 := Apply(s1, Step(0, newPay));
    var s3 := Apply(s2, Step(0, newPay));
    Apply(s3, Step(0, newPay))
  }

  lemma WholeIsFour(s: State, call: Call, newPay: nat)
    ensures RunFrom(Apply, s, Whole(call, newPay)) == AfterWhole(s, call, newPay)
  {
    hide Apply, RunFrom;
    var e0, e1 := Start(0, call), Step(0, newPay);
    FirstStep(Apply, s, e0, [e1, e1, e1]);
    ThreeSteps(Apply, Apply(s, e0), e1, e1, e1);
    assert Whole(call, newPay) == [e0] + [e1, e1, e1];
  }

  /** The status a whole call writes, if it writes one. */
  function Written(db: Db, call: Call, newPay: nat): Option<(nat, Status)> {
    match call
    case AdminCall(tenant, id, to) =>
      if Owned(db, tenant, id) && db.orders[id].status != to && Allowed(db.orders[id].status, to)
      then Some((id, to)) else None
    case UploadCall(id, _) =>
      if id in db.orders && newPay !in db.payments && db.orders[id].status == Pending
      then Some((id, PaymentReceived)) else None
    case WebhookCall(_, id, paid) => if id in db.orders && paid then Some((id, PaymentAccepted)) else None
    case ChargeCall(_, _) => None
    case EditCall(_, _, _) => None
  }

  function LogAfter(log: map<nat, seq<Status>>, w: Option<(nat, Status)>): map<nat, seq<Status>> {
    match w case None => log case Some((id, status)) => if id in log then log[id := log[id] + [status]] else log
  }

  /** Run without interruption, the statements of a call do what the service
      method is specified to do, and leave no call under way. */
  lemma WholeIsService(s: State, call: Call, newPay: nat)
    requires s.procs == map[] && forall id :: id in s.db.orders ==> id in s.log
    ensures var t := AfterWhole(s, call, newPay);
            t.db == ServiceCall(s.db, call, newPay) && t.procs == map[]
            && t.log == LogAfter(s.log, Written(s.db, call, newPay))
  {
    match call {
      case AdminCall(tenant, id, to) => AdminWhole(s, tenant, id, to, newPay);
      case UploadCall(id, key) => UploadWhole(s, id, key, newPay);
      case WebhookCall(pay, id, paid) => WebhookWhole(s, pay, id, paid, newPay);
      case ChargeCall(tenant, id) =>
        hide Transitions;
        assert s.procs[0 := ChargeRead(id, 0)] - {0} == map[];
      case EditCall(tenant, id, details) =>
        hide Transitions;
        assert s.procs[0 := EditRead(tenant, id, details, 0)] - {0} == map[];
    }
  }

  lemma AdminWhole(s: State, tenant: nat, id: nat, to: Status, newPay: nat)
    requires s.procs == map[] && forall id :: id in s.db.orders ==> id in s.log
    ensures var call := AdminCall(tenant, id, to);
            var t := AfterWhole(s, call, newPay);
            t.db == ServiceCall(s.db, call, newPay) && t.procs == map[]
            && t.log == LogAfter(s.log, Written(s.db, call, newPay))
  {
    hide Transitions;
  }

  lemma UploadWhole(s: State, id: nat, key: string, newPay: nat)
    requires s.procs == map[] && forall id :: id in s.db.orders ==> id in s.log
    ensures var call := UploadCall(id, key);
            var t := AfterWhole(s, call, newPay);
            t.db == ServiceCall(s.db, call, newPay) && t.procs == map[]
            && t.log == LogAfter(s.log, Written(s.db, call, newPay))
  {
    hide Transitions;
  }

  lemma WebhookWhole(s: State, pay: nat, id: nat, paid: bool, newPay: nat)
    requires s.procs == map[] && forall id :: id in s.db.orders ==> id in s.log
    ensures var call := WebhookCall(pay, id, paid);
            var t := AfterWhole(s, call, newPay);
            t.db == ServiceCall(s.db, call, newPay) && t.procs == map[]
            && t.log == LogAfter(s.log, Written(s.db, call, newPay))
  {
    hide Transitions;
  }

  ghost predicate SerialOk(s: State) {
    Inv(s) && s.totals.Keys == s.log.Keys && s.procs == map[] && forall id :: id in s.log ==> Path(s.log[id])
  }

  predicate NoWebhook(acts: seq<Act>) {
    forall i :: 0 <= i < |acts| ==> acts[i].CallOf? ==> !acts[i].call.WebhookCall?
  }

  lemma PathGrows(h: seq<Status>, status: Status)
    requires Path(h) && h != []
    ensures Path(h + [status]) <==> Allowed(h[|h| - 1], status)
  {
    var g := h + [status];
    var n := |h| - 1;
    if Path(g) { assert Allowed(g[n], g[n + 1]); }
    if Allowed(h[n], status) {
      forall i | 0 <= i < |g| - 1 ensures Allowed(g[i], g[i + 1]) {
        if i < n { assert Allowed(h[i], h[i + 1]); }
      }
    }
  }

  lemma WholeKeepsPaths(s: State, call: Call, newPay: nat)
    requires SerialOk(s) && !call.WebhookCall?
    ensures SerialOk(RunFrom(Apply, s, Whole(call, newPay)))
  {
    hide Path, HistoryOk, AfterWhole, ServiceCall, RunFrom, LocalOk, PaymentsOk;
    WholeIsFour(s, call, newPay);
    WholeIsService(s, call, newPay);
    RunExtends(s, Whole(call, newPay));
    var w := Written(s.db, call, newPay);
    if w.Some? { PathGrows(s.log[w.value.0], w.value.1); }
  }

  lemma AtomicKeepsPaths(s: State, e: Event)
    requires SerialOk(s) && IsAtomic(e)
    ensures SerialOk(Apply(s, e))
  {
    hide HistoryOk, LocalOk, PaymentsOk, OrdersOk, Path;
    ApplyKeeps(s, e);
    if e.ExpireStale? {
      hide Expire;
      forall id | id in s.log ensures Path(Apply(s, e).log[id]) {
        ExpirePath(s, e.now, id);
      }
    } else {
      SinglePath();
      hide Inv, InsertOrder, DeleteOrder, SetPayment;
    }
  }

  lemma ExpirePath(s: State, now: int, id: nat)
    requires SerialOk(s) && id in s.log
    ensures id in WriteExpired(s, now).log && Path(WriteExpired(s, now).log[id])
  {
    hide LocalOk, PaymentsOk, Path, Expire;
    HistoryStarts(s.log[id]);
    if id in s.db.orders && Stale(s.db.orders[id], now) {
      assert RowOk(s.db.orders[id], id, s.log, s.totals);
      hide HistoryOk;
      PathGrows(s.log[id], Expired);
    }
  }

  lemma HistoryStarts(h: seq<Status>)
    requires HistoryOk(h)
    ensures h != [] && h[0] == Pending
  {
  }

  lemma SinglePath()
    ensures Path([Pending])
  {
  }

  lemma {:induction false} SerialKeepsPaths(s: State, acts: seq<Act>)
    requires SerialOk(s) && NoWebhook(acts)
    ensures SerialOk(RunFrom(Apply, s, EventsOf(acts)))
    decreases |acts|
  {
    if acts != [] {
      hide SerialOk, Apply, Whole;
      var first :=
        match acts[0]
        case Atomic(e) => if IsAtomic(e) then [e] else []
        case CallOf(call, newPay) => Whole(call, newPay);
      RunConcat(Apply, s, first, EventsOf(acts[1..]));
      match acts[0] {
        case CallOf(call, newPay) => WholeKeepsPaths(s, call, newPay);
        case Atomic(e) =>
          if IsAtomic(e) {
            AtomicKeepsPaths(s, e);
            assert [e][1..] == [];
          }
      }
      SerialKeepsPaths(RunFrom(Apply, s, first), acts[1..]);
    }
  }

  /** In serial runs without the webhook every history follows the transition
      table from pending on. */
  lemma SerialPaths(acts: seq<Act>, id: nat)
    requires NoWebhook(acts) && id in Run(EventsOf(acts)).log
    ensures var h := Run(EventsOf(acts)).log[id];
            Path(h) && h != [] && h[0] == Pending
  {
    SerialKeepsPaths(INIT, acts);
    assert HistoryOk(Run(EventsOf(acts)).log[id]);
  }

  /** A paid webhook keeps the table exactly when the payment had been received
      and not yet decided; it never looks. */
  lemma WebhookPath(s: State, pay: nat, id: nat, newPay: nat)
    requires SerialOk(s) && id in s.db.orders
    ensures var t := AfterWhole(s, WebhookCall(pay, id, true), newPay);
            id in t.log && (Path(t.log[id]) <==> s.db.orders[id].status == PaymentReceived)
  {
    hide Path, AfterWhole;
    WholeIsService(s, WebhookCall(pay, id, true), newPay);
    PathGrows(s.log[id], PaymentAccepted);
  }

  /** The order expires between the reads and the writes of a proof upload. */
  function StaleUpload(s: State, id: nat, key: string, newPay: nat, now: int): State {
    var s1 := Apply(s, Start(0, UploadCall(id, key)));
    var s2 := Apply(s1, Step(0, newPay));
    var s3 := Apply(s2, ExpireStale(now));
    var s4 := Apply(s3, Step(0, newPay));
    Apply(s4, Step(0, newPay))
  }

  /** Interleaving breaks the table even without the webhook: a proof upload that
      read `pending` before the order expired brings every such order back. */
  lemma UploadRevivesExpired(s: State, id: nat, key: string, newPay: nat, now: int)
    requires SerialOk(s) && id in s.db.orders && Stale(s.db.orders[id], now) && newPay !in s.db.payments
    ensures var t := StaleUpload(s, id, key, newPay, now);
            id in t.log && t.log[id] == s.log[id] + [Expired, PaymentReceived]
            && id in t.db.orders && t.db.orders[id].status == PaymentReceived && !Path(t.log[id])
  {
    StaleRead(s, id, key, newPay, now);
    var s2 := Apply(Apply(s, Start(0, UploadCall(id, key))), Step(0, newPay));
    hide HistoryOk, Path, LocalOk, SerialOk, StartCall;
    StaleWrite(Apply(s2, ExpireStale(now)), id, key, newPay, s.db.orders[id]);
    assert s.log[id] + [Expired, PaymentReceived] == (s.log[id] + [Expired]) + [PaymentReceived];
    NotAPath(s.log[id]);
  }

  lemma StaleRead(s: State, id: nat, key: string, newPay: nat, now: int)
    requires SerialOk(s) && id in s.db.orders && Stale(s.db.orders[id], now)
    ensures var t := Apply(Apply(Apply(s, Start(0, UploadCall(id, key))), Step(0, newPay)), ExpireStale(now));
            var o := s.db.orders[id];
            && 0 in t.procs && t.procs[0] == UploadRead(id, key, o.total, o.tenant, Pending)
            && t.db.payments == s.db.payments && id in t.db.orders && t.db.orders[id] == o.(status := Expired)
            && id in s.log && id in t.log && t.log[id] == s.log[id] + [Expired]
  {
    hide HistoryOk, Path, LocalOk;
  }

  lemma StaleWrite(s: State, id: nat, key: string, newPay: nat, o: Order)
    requires 0 in s.procs && s.procs[0] == UploadRead(id, key, o.total, o.tenant, Pending)
    requires id in s.db.orders && s.db.orders[id] == o.(status := Expired) && newPay !in s.db.payments && id in s.log
    ensures var t := Apply(Apply(s, Step(0, newPay)), Step(0, newPay));
            id in t.log && t.log[id] == s.log[id] + [PaymentReceived]
            && id in t.db.orders && t.db.orders[id].status == PaymentReceived
  {
  }

  lemma NotAPath(h: seq<Status>)
    ensures !Path(h + [Expired, PaymentReceived])
  {
    var g := h + [Expired, PaymentReceived];
    var i := |h|;
    assert !Allowed(g[i], g[i + 1]);
  }
}
