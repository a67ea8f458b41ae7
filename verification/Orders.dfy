/** Orders, items and payments: api/internal/orders/repo.go and service.go. One
    SQL statement or transaction is one function of the database; the methods of
    the classes run them as the Go code does. Amounts in the database are whole
    sen, as NUMERIC(12,2) stores them. */
module Orders {
  import opened Text
  import Currency

  datatype Status = Pending | PaymentReceived | PaymentAccepted | Shipped | Expired | Cancelled | Rejected

  datatype PaymentStatus = Submitted | Verified | PaymentRejected

  function Transitions(from: Status): seq<Status> {
    match from
    case Pending => [PaymentReceived, Cancelled, Expired]
    case PaymentReceived => [PaymentAccepted, Rejected, Cancelled]
    case PaymentAccepted => [Shipped, Cancelled]
    case Shipped => []
    case Expired => []
    case Cancelled => []
    case Rejected => [PaymentReceived]
  }

  predicate Allowed(from: Status, to: Status) {
    to in Transitions(from)
  }

  /** From where each status can be entered, and that none is out of reach. */
  lemma EnteredFrom(from: Status)
    ensures !Allowed(from, Pending)
    ensures Allowed(from, PaymentReceived) <==> from == Pending || from == Rejected
    ensures Allowed(from, PaymentAccepted) <==> from == PaymentReceived
    ensures Allowed(from, Rejected) <==> from == PaymentReceived
    ensures Allowed(from, Shipped) <==> from == PaymentAccepted
    ensures Allowed(from, Expired) <==> from == Pending
    ensures Allowed(from, Cancelled) <==> from == Pending || from == PaymentReceived || from == PaymentAccepted
  {
  }

  method CanTransition(from: Status, to: Status) returns (ok: bool)
    ensures ok <==> Allowed(from, to)
  {
    var ts := Transitions(from);
    for i := 0 to |ts|
      invariant to !in ts[..i]
    {
      if ts[i] == to {
        return true;
      }
    }
    return false;
  }

  // ---- money ----

  /** The stored sen of an amount in ringgit: rounded half away from zero. */
  function RoundSen(x: real): int {
    if x >= 0.0 then (x * 100.0 + 0.5).Floor else -((-x * 100.0 + 0.5).Floor)
  }

  function SumReal(xs: seq<real>): real {
    if xs == [] then 0.0 else SumReal(xs[..|xs| - 1]) + xs[|xs| - 1]
  }

  function SumSen(xs: seq<real>): int {
    if xs == [] then 0 else SumSen(xs[..|xs| - 1]) + RoundSen(xs[|xs| - 1])
  }

  lemma RoundSenError(x: real)
    ensures -0.5 <= RoundSen(x) as real - x * 100.0 <= 0.5
  {
    var y := x * 100.0;
    assert -x * 100.0 == -y;
  }

  predicate WholeSen(x: real) {
    RoundSen(x) as real == x * 100.0
  }

  lemma RoundWhole(x: real, n: int)
    requires x * 100.0 == n as real
    ensures RoundSen(x) == n
  {
    RoundSenError(x);
    assert -0.5 <= (RoundSen(x) - n) as real <= 0.5;
  }

  /** Half a sen is rounded away from zero. */
  lemma HalfSenAway(x: real)
    ensures RoundSen(x) as real - x * 100.0 == -0.5 ==> x * 100.0 <= -0.5
    ensures RoundSen(x) as real - x * 100.0 == 0.5 ==> x * 100.0 >= 0.5
  {
    var y := x * 100.0;
    assert -x * 100.0 == -y;
    if x >= 0.0 {
      var n := (y + 0.5).Floor;
      assert n as real > y - 0.5;
      assert n as real == y + 0.5 ==> n >= 1;
    } else {
      var n := (-y + 0.5).Floor;
      assert n as real > -y - 0.5;
      assert n as real == -y + 0.5 ==> n >= 1;
    }
  }

  lemma {:induction false} SumError(xs: seq<real>)
    ensures var err := 2.0 * (SumSen(xs) as real - SumReal(xs) * 100.0);
            && -(|xs| as real) <= err <= |xs| as real
            && (err == -(|xs| as real) ==> 2.0 * SumReal(xs) * 100.0 <= -(|xs| as real))
    ensures (forall i :: 0 <= i < |xs| ==> WholeSen(xs[i])) ==> SumSen(xs) as real == SumReal(xs) * 100.0
  {
    if xs != [] {
      hide RoundSen;
      var n := |xs| - 1;
      SumError(xs[..n]);
      RoundSenError(xs[n]);
      HalfSenAway(xs[n]);
    }
  }

  /** The stored total and the sum of n stored line totals differ by at most
      n / 2 sen (rounded down) whenever the total may be stored at all, that is,
      when it is not negative; by (n + 1) / 2 for any amounts; and not at all
      when every line is a whole number of sen. */
  lemma TotalDrift(xs: seq<real>)
    ensures RoundSen(SumReal(xs)) >= 0 ==> -|xs| <= 2 * (RoundSen(SumReal(xs)) - SumSen(xs)) <= |xs|
    ensures -(|xs| + 1) <= 2 * (RoundSen(SumReal(xs)) - SumSen(xs)) <= |xs| + 1
    ensures (forall i :: 0 <= i < |xs| ==> WholeSen(xs[i])) ==> RoundSen(SumReal(xs)) == SumSen(xs)
  {
    var total := SumReal(xs);
    HalfSenAway(total);
    hide RoundSen, SumReal, SumSen;
    SumError(xs);
    RoundSenError(total);
    if forall i :: 0 <= i < |xs| ==> WholeSen(xs[i]) { RoundWhole(total, SumSen(xs)); }
    DriftInRange(RoundSen(total), SumSen(xs), total * 100.0, |xs|);
  }

  lemma DriftInRange(stored: int, lines: int, exact: real, n: int)
    requires n >= 0 && -0.5 <= stored as real - exact <= 0.5
    requires stored as real - exact == -0.5 ==> exact <= -0.5
    requires stored as real - exact == 0.5 ==> exact >= 0.5
    requires var err := 2.0 * (lines as real - exact);
             -(n as real) <= err <= n as real && (err == -(n as real) ==> 2.0 * exact <= -(n as real))
    ensures -(n + 1) <= 2 * (stored - lines) <= n + 1
    ensures stored >= 0 ==> -n <= 2 * (stored - lines) <= n
  {
    var d := stored - lines;
    assert (2 * d) as real == 2.0 * (stored as real - exact) - 2.0 * (lines as real - exact);
    assert -((n + 1) as real) <= (2 * d) as real <= (n + 1) as real;
    if stored >= 0 {
      assert stored as real - exact > -0.5;
      assert -((n + 1) as real) < (2 * d) as real < (n + 1) as real;
    }
  }

  lemma WholeSenLine(it: Item)
    requires WholeSen(it.unitPrice)
    ensures WholeSen(LineAmount(it))
  {
    hide RoundSen;
    var q, u, x := it.quantity, RoundSen(it.unitPrice), LineAmount(it);
    assert (q * u) as real == q as real * u as real;
    assert x * 100.0 == q as real * (it.unitPrice * 100.0);
    assert it.unitPrice * 100.0 == u as real;
    RoundWhole(x, q * u);
  }

  // ---- the database ----

  datatype Line = Line(sku: string, product: Option<nat>, name: string, quantity: int, unitPrice: int, lineTotal: int)

  datatype Order = Order(tenant: nat, status: Status, details: string, total: int, expires: int, lines: seq<Line>)

  datatype Payment = Payment(order: nat, proofKey: string, amount: int, status: PaymentStatus)

  datatype Db = Db(orders: map<nat, Order>, payments: map<nat, Payment>)

  /** An item before it is stored: a price in ringgit, not yet rounded. */
  datatype Item = Item(sku: string, product: Option<nat>, name: string, quantity: int, unitPrice: real)

  function LineAmount(it: Item): real {
    it.quantity as real * it.unitPrice
  }

  function LineAmounts(items: seq<Item>): (r: seq<real>)
    ensures |r| == |items| && forall i :: 0 <= i < |r| ==> r[i] == LineAmount(items[i])
  {
    seq(|items|, i requires 0 <= i < |items| => LineAmount(items[i]))
  }

  function StoredLine(it: Item): Line {
    Line(it.sku, it.product, it.name, it.quantity, RoundSen(it.unitPrice), RoundSen(LineAmount(it)))
  }

  /** The number of sen that is nearest to the amount, or one of the two. */
  predicate NearestSen(sen: int, x: real) {
    -0.5 <= sen as real - x * 100.0 <= 0.5
  }

  /** What a stored line keeps of its item: all fields, the amounts to the sen. */
  predicate StoredAs(it: Item, line: Line) {
    && line.sku == it.sku && line.product == it.product && line.name == it.name && line.quantity == it.quantity
    && NearestSen(line.unitPrice, it.unitPrice) && NearestSen(line.lineTotal, it.quantity as real * it.unitPrice)
  }

  function StoredLines(items: seq<Item>): (r: seq<Line>)
    ensures |r| == |items| && forall i :: 0 <= i < |r| ==> r[i] == StoredLine(items[i])
  {
    seq(|items|, i requires 0 <= i < |items| => StoredLine(items[i]))
  }

  lemma AmountsNext(items: seq<Item>, i: nat)
    requires i < |items|
    ensures LineAmounts(items[..i + 1]) == LineAmounts(items[..i]) + [LineAmount(items[i])]
    ensures SumReal(LineAmounts(items[..i + 1])) == SumReal(LineAmounts(items[..i])) + LineAmount(items[i])
  {
    hide LineAmount;
    var front, all := LineAmounts(items[..i]), LineAmounts(items[..i + 1]);
    assert all == front + [LineAmount(items[i])];
    assert all[..i] == front;
  }

  lemma StoredLinesAs(items: seq<Item>)
    ensures forall i :: 0 <= i < |items| ==> StoredAs(items[i], StoredLines(items)[i])
  {
    forall i | 0 <= i < |items|
      ensures StoredAs(items[i], StoredLines(items)[i])
    {
      RoundSenError(items[i].unitPrice);
      RoundSenError(LineAmount(items[i]));
    }
  }

  const NUMERIC_LIMIT := 1_000_000_000_000

  predicate Numeric(sen: int) {
    -NUMERIC_LIMIT < sen < NUMERIC_LIMIT
  }

  /** The CHECK constraints and the range of NUMERIC(12,2). */
  predicate Storable(total: int, lines: seq<Line>) {
    0 <= total && Numeric(total)
    && forall i :: 0 <= i < |lines| ==>
         lines[i].quantity > 0 && 0 <= lines[i].unitPrice && Numeric(lines[i].unitPrice) && Numeric(lines[i].lineTotal)
  }

  /** The transaction of Create: a total given as zero is filled in. */
  function InsertOrderOf(db: Db, id: nat, tenant: nat, details: string, expires: int, items: seq<Item>, given: real)
    : Option<Db>
  {
    var lines, total := StoredLines(items), RoundSen(if given == 0.0 then SumReal(LineAmounts(items)) else given);
    if Storable(total, lines) && id !in db.orders
    then Some(db.(orders := db.orders[id := Order(tenant, Pending, details, total, expires, lines)]))
    else None
  }

  /** As the service creates orders: the total is left at zero. */
  function InsertOrder(db: Db, id: nat, tenant: nat, details: string, expires: int, items: seq<Item>): Option<Db> {
    InsertOrderOf(db, id, tenant, details, expires, items, 0.0)
  }

  predicate Owned(db: Db, tenant: nat, id: nat) {
    id in db.orders && db.orders[id].tenant == tenant
  }

  function SetStatus(db: Db, tenant: nat, id: nat, status: Status): Db {
    if Owned(db, tenant, id) then db.(orders := db.orders[id := db.orders[id].(status := status)]) else db
  }

  function SetDetails(db: Db, tenant: nat, id: nat, details: string, total: int): Db {
    if !Owned(db, tenant, id) then db
    else db.(orders := db.orders[id := db.orders[id].(details := details, total := total)])
  }

  /** Deleting an order deletes its payments with it. */
  function DeleteOrder(db: Db, tenant: nat, id: nat): Db {
    if Owned(db, tenant, id)
    then Db(db.orders - {id}, map p | p in db.payments && db.payments[p].order != id :: db.payments[p])
    else db
  }

  predicate Stale(o: Order, now: int) {
    o.status == Pending && o.expires < now
  }

  function Expire(db: Db, now: int): Db {
    db.(orders := map id | id in db.orders ::
          if Stale(db.orders[id], now) then db.orders[id].(status := Expired) else db.orders[id])
  }

  /** The foreign key refuses a payment for an order that is gone. */
  function InsertPayment(db: Db, pay: nat, id: nat, proofKey: string, amount: int): Option<Db> {
    if id in db.orders && pay !in db.payments
    then Some(db.(payments := db.payments[pay := Payment(id, proofKey, amount, Submitted)]))
    else None
  }

  function SetPayment(db: Db, tenant: nat, pay: nat, status: PaymentStatus): Db {
    if pay in db.payments && Owned(db, tenant, db.payments[pay].order)
    then db.(payments := db.payments[pay := db.payments[pay].(status := status)])
    else db
  }

  // ---- the repository ----

  class Repo {
    var db: Db

    constructor ()
      ensures db == Db(map[], map[])
    {
      db := Db(map[], map[]);
    }

    /** Fills the line totals and the total, then inserts order and items. */
    method Create(id: nat, tenant: nat, details: string, expires: int, items: seq<Item>, given: real := 0.0)
      returns (ok: bool)
      modifies this
      ensures var r := InsertOrderOf(old(db), id, tenant, details, expires, items, given);
              ok == r.Some? && db == if r.Some? then r.value else old(db)
      ensures ok ==>
                && id !in old(db).orders && db == old(db).(orders := old(db).orders[id := db.orders[id]])
                && db.orders[id].status == Pending && db.orders[id].tenant == tenant
                && db.orders[id].details == details && db.orders[id].expires == expires
                && |db.orders[id].lines| == |items|
                && forall i :: 0 <= i < |items| ==> StoredAs(items[i], db.orders[id].lines[i])
      ensures ok && given != 0.0 ==> NearestSen(db.orders[id].total, given)
    {
      StoredLinesAs(items);
      RoundSenError(given);
      hide LineAmount, RoundSen, StoredAs;
      var total := 0.0;
      var lineTotals: seq<real> := [];
      for i := 0 to |items|
        invariant lineTotals == LineAmounts(items[..i]) && total == SumReal(lineTotals)
        invariant db == old(db)
      {
        var lineTotal := LineAmount(items[i]);
        AmountsNext(items, i);
        lineTotals := lineTotals + [lineTotal];
        total := total + lineTotal;
      }
      assert items[..|items|] == items;
      assert lineTotals == LineAmounts(items) && total == SumReal(LineAmounts(items));
      var lines := seq(|items|, i requires 0 <= i < |items| && |lineTotals| == |items| =>
                         Line(items[i].sku, items[i].product, items[i].name, items[i].quantity,
                              RoundSen(items[i].unitPrice), RoundSen(lineTotals[i])));
      assert lines == StoredLines(items);
      if given != 0.0 {
        total := given;
      }
      ok := Storable(RoundSen(total), lines) && id !in db.orders;
      if ok {
        db := db.(orders := db.orders[id := Order(tenant, Pending, details, RoundSen(total), expires, lines)]);
      }
    }

    method UpdateStatus(tenant: nat, id: nat, status: Status) returns (found: bool)
      modifies this
      ensures db == SetStatus(old(db), tenant, id, status)
      ensures found == (id in old(db).orders && old(db).orders[id].tenant == tenant)
      ensures db.payments == old(db).payments && db.orders.Keys == old(db).orders.Keys
      ensures forall i :: i in db.orders ==>
                db.orders[i] == if found && i == id then old(db).orders[i].(status := status) else old(db).orders[i]
    {
      found := id in db.orders && db.orders[id].tenant == tenant;
      if found {
        db := db.(orders := db.orders[id := db.orders[id].(status := status)]);
      }
    }

    method UpdateDetails(tenant: nat, id: nat, details: string, total: int) returns (found: bool)
      modifies this
      ensures db == SetDetails(old(db), tenant, id, details, total)
      ensures found == (id in old(db).orders && old(db).orders[id].tenant == tenant)
      ensures db.payments == old(db).payments && db.orders.Keys == old(db).orders.Keys
      ensures forall i :: i in db.orders ==>
                db.orders[i] == if found && i == id then old(db).orders[i].(details := details, total := total)
                                else old(db).orders[i]
    {
      found := id in db.orders && db.orders[id].tenant == tenant;
      if found {
        db := db.(orders := db.orders[id := db.orders[id].(details := details, total := total)]);
      }
    }

    method Delete(tenant: nat, id: nat) returns (found: bool)
      modifies this
      ensures db == DeleteOrder(old(db), tenant, id)
      ensures found == (id in old(db).orders && old(db).orders[id].tenant == tenant)
      ensures forall i :: i in db.orders <==> i in old(db).orders && !(found && i == id)
      ensures forall i :: i in db.orders ==> db.orders[i] == old(db).orders[i]
      ensures forall p :: p in db.payments <==> p in old(db).payments && !(found && old(db).payments[p].order == id)
      ensures forall p :: p in db.payments ==> db.payments[p] == old(db).payments[p]
    {
      found := id in db.orders && db.orders[id].tenant == tenant;
      if found {
        db := Db(db.orders - {id}, map p | p in db.payments && db.payments[p].order != id :: db.payments[p]);
      }
    }

    /** Returns how many orders it expired. */
    method ExpireStale(now: int) returns (n: nat)
      modifies this
      ensures db == Expire(old(db), now)
      ensures n == |set id | id in old(db).orders && old(db).orders[id].status == Pending
                             && old(db).orders[id].expires < now|
      ensures db.payments == old(db).payments && db.orders.Keys == old(db).orders.Keys
      ensures forall id :: id in db.orders ==>
                var o := old(db).orders[id];
                db.orders[id] == if o.status == Pending && o.expires < now then o.(status := Expired) else o
    {
      n := |set id | id in db.orders && db.orders[id].status == Pending && db.orders[id].expires < now|;
      db := db.(orders := map id | id in db.orders ::
                  if Stale(db.orders[id], now) then db.orders[id].(status := Expired) else db.orders[id]);
    }

    method AddPayment(pay: nat, id: nat, proofKey: string, amount: int) returns (ok: bool)
      modifies this
      ensures var r := InsertPayment(old(db), pay, id, proofKey, amount);
              ok == r.Some? && db == if r.Some? then r.value else old(db)
      ensures ok <==> id in old(db).orders && pay !in old(db).payments
      ensures db.orders == old(db).orders
      ensures ok ==> pay in db.payments && db.payments[pay] == Payment(id, proofKey, amount, Submitted)
      ensures forall p :: p in db.payments <==> p in old(db).payments || (ok && p == pay)
      ensures forall p :: p in old(db).payments ==> db.payments[p] == old(db).payments[p]
    {
      ok := id in db.orders && pay !in db.payments;
      if ok {
        db := db.(payments := db.payments[pay := Payment(id, proofKey, amount, Submitted)]);
      }
    }

    method SetPaymentStatus(tenant: nat, pay: nat, status: PaymentStatus) returns (found: bool)
      modifies this
      ensures db == SetPayment(old(db), tenant, pay, status)
      ensures found ==
              (pay in old(db).payments && old(db).payments[pay].order in old(db).orders
               && old(db).orders[old(db).payments[pay].order].tenant == tenant)
      ensures db.orders == old(db).orders && db.payments.Keys == old(db).payments.Keys
      ensures forall p :: p in db.payments ==>
                db.payments[p] ==
                if found && p == pay then old(db).payments[p].(status := status) else old(db).payments[p]
    {
      found := pay in db.payments && db.payments[pay].order in db.orders
               && db.orders[db.payments[pay].order].tenant == tenant;
      if found {
        db := db.(payments := db.payments[pay := db.payments[pay].(status := status)]);
      }
    }
  }

  // ---- the service, each call uninterrupted ----

  function AdminUpdate(db: Db, tenant: nat, id: nat, to: Status): Db {
    if Owned(db, tenant, id) && db.orders[id].status != to && Allowed(db.orders[id].status, to)
    then SetStatus(db, tenant, id, to) else db
  }

  /** PublicUploadPayment: the amount is the total read before the upload. */
  function UploadProof(db: Db, pay: nat, id: nat, proofKey: string, amount: int): Db {
    if id !in db.orders then db
    else
      var o := db.orders[id];
      match InsertPayment(db, pay, id, proofKey, amount)
      case None => db
      case Some(db') => if o.status == Pending then SetStatus(db', o.tenant, id, PaymentReceived) else db'
  }

  /** paymentWebhook, once it reports `paid`: no look at the order's status. */
  function GatewayPaid(db: Db, pay: nat, id: nat): Db {
    if id !in db.orders then db
    else
      var t := db.orders[id].tenant;
      SetStatus(SetPayment(db, t, pay, Verified), t, id, PaymentAccepted)
  }

  function Charge(db: Db, tenant: nat, pay: nat, id: nat): Db {
    if !Owned(db, tenant, id) then db
    else match InsertPayment(db, pay, id, "", db.orders[id].total) case None => db case Some(db') => db'
  }

  function EditDetails(db: Db, tenant: nat, id: nat, details: string): Db {
    if !Owned(db, tenant, id) then db else SetDetails(db, tenant, id, details, db.orders[id].total)
  }

  class Service {
    const repo: Repo

    constructor (repo: Repo)
      ensures this.repo == repo
    {
      this.repo := repo;
    }

    /** False is the error for an unknown order or a transition not allowed. */
    method UpdateStatus(tenant: nat, id: nat, to: Status) returns (ok: bool)
      modifies repo
      ensures repo.db == AdminUpdate(old(repo.db), tenant, id, to)
      ensures ok <==> Owned(old(repo.db), tenant, id)
                      && (old(repo.db).orders[id].status == to || Allowed(old(repo.db).orders[id].status, to))
      ensures !ok ==> repo.db == old(repo.db)
      ensures ok ==>
                && id in old(repo.db).orders && old(repo.db).orders[id].tenant == tenant
                && repo.db.payments == old(repo.db).payments
                && repo.db.orders == old(repo.db).orders[id := old(repo.db).orders[id].(status := to)]
    {
      if id !in repo.db.orders || repo.db.orders[id].tenant != tenant {
        return false;
      }
      var o := repo.db.orders[id];
      if o.status == to {
        return true;
      }
      var can := CanTransition(o.status, to);
      if !can {
        return false;
      }
      ok := repo.UpdateStatus(tenant, id, to);
    }

    method UpdateDetails(tenant: nat, id: nat, details: string) returns (ok: bool)
      modifies repo
      ensures repo.db == EditDetails(old(repo.db), tenant, id, details)
      ensures ok == (id in old(repo.db).orders && old(repo.db).orders[id].tenant == tenant)
      ensures !ok ==> repo.db == old(repo.db)
      ensures ok ==>
                && repo.db.payments == old(repo.db).payments
                && repo.db.orders == old(repo.db).orders[id := old(repo.db).orders[id].(details := details)]
    {
      if id !in repo.db.orders || repo.db.orders[id].tenant != tenant {
        return false;
      }
      ok := repo.UpdateDetails(tenant, id, details, repo.db.orders[id].total);
    }

    method AddPaymentProof(pay: nat, id: nat, proofKey: string, amount: int) returns (ok: bool)
      modifies repo
      ensures repo.db == UploadProof(old(repo.db), pay, id, proofKey, amount)
      ensures ok == (id in old(repo.db).orders && pay !in old(repo.db).payments)
      ensures !ok ==> repo.db == old(repo.db)
      ensures ok ==>
                var o := old(repo.db).orders[id];
                && repo.db.payments == old(repo.db).payments[pay := Payment(id, proofKey, amount, Submitted)]
                && repo.db.orders == old(repo.db).orders[id := if o.status == Pending then o.(status := PaymentReceived)
                                                               else o]
    {
      if id !in repo.db.orders {
        return false;
      }
      var o := repo.db.orders[id];
      ok := repo.AddPayment(pay, id, proofKey, amount);
      if ok && o.status == Pending {
        var _ := repo.UpdateStatus(o.tenant, id, PaymentReceived);
      }
    }

    method PaymentWebhook(pay: nat, id: nat, paid: bool) returns (ok: bool)
      modifies repo
      ensures repo.db == if paid then GatewayPaid(old(repo.db), pay, id) else old(repo.db)
      ensures ok == (id in old(repo.db).orders)
      ensures !(ok && paid) ==> repo.db == old(repo.db)
      ensures ok && paid ==>
                && repo.db.orders == old(repo.db).orders[id := old(repo.db).orders[id].(status := PaymentAccepted)]
                && repo.db.payments.Keys == old(repo.db).payments.Keys
                && forall p :: p in repo.db.payments ==>
                     var before := old(repo.db).payments[p];
                     var ours := before.order in old(repo.db).orders
                                 && old(repo.db).orders[before.order].tenant == old(repo.db).orders[id].tenant;
                     repo.db.payments[p] == if p == pay && ours then before.(status := Verified) else before
    {
      if id !in repo.db.orders {
        return false;
      }
      var o := repo.db.orders[id];
      if paid {
        var _ := repo.SetPaymentStatus(o.tenant, pay, Verified);
        var _ := repo.UpdateStatus(o.tenant, id, PaymentAccepted);
      }
      ok := true;
    }

    /** `accepts` is the gateway's answer; without it nothing is stored. */
    method ChargeOrder(tenant: nat, pay: nat, id: nat, currency: string, accepts: bool)
      returns (charged: Option<Currency.Money>)
      modifies repo
      ensures repo.db == if accepts then Charge(old(repo.db), tenant, pay, id) else old(repo.db)
      ensures charged.Some? <==>
              accepts && id in old(repo.db).orders && old(repo.db).orders[id].tenant == tenant
              && pay !in old(repo.db).payments
      ensures charged.None? ==> repo.db == old(repo.db)
      ensures charged.Some? ==>
                var total := old(repo.db).orders[id].total;
                && charged.value == ChargedAmount(total, currency)
                && repo.db.orders == old(repo.db).orders
                && repo.db.payments == old(repo.db).payments[pay := Payment(id, "", total, Submitted)]
    {
      if id !in repo.db.orders || repo.db.orders[id].tenant != tenant || !accepts {
        return None;
      }
      var total := repo.db.orders[id].total;
      var to := Currency.Upper(currency);
      if to == "" {
        to := "MYR";
      }
      var ok := repo.AddPayment(pay, id, "", total);
      charged := if ok then Some(Currency.Convert(Currency.Money(total, "MYR"), to)) else None;
    }
  }

  /** What the gateway is asked for: the total in sen, in the wanted currency. */
  function ChargedAmount(total: int, currency: string): Currency.Money {
    var to := Currency.Upper(currency);
    Currency.Convert(Currency.Money(total, "MYR"), if to == "" then "MYR" else to)
  }

  // ---- building items ----

  datatype ItemInput = ItemInput(sku: string, quantity: int, unitPrice: real)

  datatype CatalogProduct = CatalogProduct(id: nat, name: string, price: real)

  /** A missing quantity is one; product, name and a missing price come from the
      catalog when it knows the SKU. */
  function BuildItem(catalog: string -> Option<CatalogProduct>, input: ItemInput): Item {
    var quantity := if input.quantity <= 0 then 1 else input.quantity;
    match catalog(input.sku)
    case None => Item(input.sku, None, "", quantity, input.unitPrice)
    case Some(p) =>
      Item(input.sku, Some(p.id), p.name, quantity, if input.unitPrice == 0.0 then p.price else input.unitPrice)
  }

  method BuildItems(catalog: string -> Option<CatalogProduct>, inputs: seq<ItemInput>) returns (items: seq<Item>)
    ensures |items| == |inputs| && forall i :: 0 <= i < |inputs| ==> items[i] == BuildItem(catalog, inputs[i])
    ensures forall i :: 0 <= i < |inputs| ==>
              && items[i].sku == inputs[i].sku
              && items[i].quantity == if inputs[i].quantity >= 1 then inputs[i].quantity else 1
    ensures forall i :: 0 <= i < |inputs| && catalog(inputs[i].sku).None? ==>
              items[i].product == None && items[i].name == "" && items[i].unitPrice == inputs[i].unitPrice
    ensures forall i :: 0 <= i < |inputs| && catalog(inputs[i].sku).Some? ==>
              var p := catalog(inputs[i].sku).value;
              && items[i].product == Some(p.id) && items[i].name == p.name
              && items[i].unitPrice == if inputs[i].unitPrice == 0.0 then p.price else inputs[i].unitPrice
  {
    items := [];
    for i := 0 to |inputs|
      invariant |items| == i && forall k :: 0 <= k < i ==> items[k] == BuildItem(catalog, inputs[k])
    {
      var input := inputs[i];
      var quantity := if input.quantity <= 0 then 1 else input.quantity;
      var it := Item(input.sku, None, "", quantity, input.unitPrice);
      var p := catalog(input.sku);
      if p.Some? {
        it := it.(product := Some(p.value.id), name := p.value.name);
        if it.unitPrice == 0.0 {
          it := it.(unitPrice := p.value.price);
        }
      }
      items := items + [it];
    }
  }

  function BuiltItems(catalog: string -> Option<CatalogProduct>, inputs: seq<ItemInput>): (items: seq<Item>)
    ensures |items| == |inputs| && forall i :: 0 <= i < |inputs| ==> items[i] == BuildItem(catalog, inputs[i])
  {
    seq(|inputs|, i requires 0 <= i < |inputs| => BuildItem(catalog, inputs[i]))
  }

  /** From the request to the stored order: a line sent without a price for a known
      SKU is stored at the catalogue's price, under the catalogue's product. */
  lemma OrderedAtCatalogPrice(catalog: string -> Option<CatalogProduct>, inputs: seq<ItemInput>,
                              db: Db, id: nat, tenant: nat, details: string, expires: int, i: nat)
    requires InsertOrder(db, id, tenant, details, expires, BuiltItems(catalog, inputs)).Some?
    requires i < |inputs| && catalog(inputs[i].sku).Some?
    ensures var o := InsertOrder(db, id, tenant, details, expires, BuiltItems(catalog, inputs)).value.orders[id];
            var p := catalog(inputs[i].sku).value;
            var price := if inputs[i].unitPrice == 0.0 then p.price else inputs[i].unitPrice;
            var quantity := if inputs[i].quantity >= 1 then inputs[i].quantity else 1;
            && |o.lines| == |inputs| && o.lines[i].sku == inputs[i].sku && o.lines[i].quantity == quantity
            && o.lines[i].product == Some(p.id) && o.lines[i].name == p.name
            && NearestSen(o.lines[i].unitPrice, price) && NearestSen(o.lines[i].lineTotal, quantity as real * price)
  {
    var items := BuiltItems(catalog, inputs);
    assert items[i] == BuildItem(catalog, inputs[i]);
    hide RoundSen, LineAmount, NearestSen, BuiltItems, Storable, SumReal, LineAmounts;
    StoredLinesAs(items);
    hide StoredLine;
  }

  function SumLineTotals(lines: seq<Line>): int {
    if lines == [] then 0 else SumLineTotals(lines[..|lines| - 1]) + lines[|lines| - 1].lineTotal
  }

  lemma {:induction false} StoredSum(items: seq<Item>)
    ensures SumLineTotals(StoredLines(items)) == SumSen(LineAmounts(items))
  {
    if items != [] {
      hide RoundSen, LineAmount;
      var n := |items| - 1;
      StoredSum(items[..n]);
      assert StoredLines(items)[..n] == StoredLines(items[..n]);
      assert LineAmounts(items)[..n] == LineAmounts(items[..n]);
    }
  }

  predicate WholePrices(items: seq<Item>) {
    forall i :: 0 <= i < |items| ==> WholeSen(items[i].unitPrice)
  }

  lemma WholeLines(items: seq<Item>)
    requires WholePrices(items)
    ensures forall i :: 0 <= i < |items| ==> WholeSen(LineAmounts(items)[i])
  {
    hide WholeSen;
    forall i | 0 <= i < |items| ensures WholeSen(LineAmounts(items)[i]) {
      WholeSenLine(items[i]);
    }
  }

  function LineOf(quantity: int, sen: int): int {
    quantity * sen
  }

  /** A stored line total is within half a sen of the exact amount, and within
      quantity / 2 sen of quantity times the stored unit price when that price may
      be stored, (quantity + 1) / 2 for any price: exactly that when the price is a
      whole number of sen. */
  lemma LineDrift(it: Item)
    requires it.quantity >= 1
    ensures var line := StoredLine(it);
            && -1.0 <= 2.0 * (line.lineTotal as real - LineAmount(it) * 100.0) <= 1.0
            && -(it.quantity + 1) <= 2 * (line.lineTotal - LineOf(it.quantity, line.unitPrice)) <= it.quantity + 1
            && (line.unitPrice >= 0 ==>
                  -it.quantity <= 2 * (line.lineTotal - LineOf(it.quantity, line.unitPrice)) <= it.quantity)
            && (WholeSen(it.unitPrice) ==> line.lineTotal == LineOf(it.quantity, line.unitPrice))
  {
    RoundSenError(LineAmount(it));
    HalfSenAway(LineAmount(it));
    hide RoundSen, LineOf;
    StoredPriceDrift(it);
    var l, p := RoundSen(LineAmount(it)), LineOf(it.quantity, RoundSen(it.unitPrice));
    assert 2.0 * (l - p) as real
        == 2.0 * (l as real - LineAmount(it) * 100.0) - 2.0 * (p as real - LineAmount(it) * 100.0);
    assert (2 * (l - p)) as real == 2.0 * (l - p) as real;
    if RoundSen(it.unitPrice) >= 0 {
      assert -((it.quantity + 1) as real) < (2 * (l - p)) as real < (it.quantity + 1) as real;
    }
    if WholeSen(it.unitPrice) {
      RoundWhole(LineAmount(it), p);
    }
  }

  lemma StoredPriceDrift(it: Item)
    requires it.quantity >= 1
    ensures var drift := LineOf(it.quantity, RoundSen(it.unitPrice)) as real - LineAmount(it) * 100.0;
            && -(it.quantity as real) <= 2.0 * drift <= it.quantity as real
            && (WholeSen(it.unitPrice) ==> drift == 0.0)
            && (RoundSen(it.unitPrice) >= 0 ==> 2.0 * drift > -(it.quantity as real))
            && (2.0 * drift == it.quantity as real ==> LineAmount(it) > 0.0)
  {
    RoundSenError(it.unitPrice);
    HalfSenAway(it.unitPrice);
    hide RoundSen;
    var u, d := RoundSen(it.unitPrice), RoundSen(it.unitPrice) as real - it.unitPrice * 100.0;
    ExactScaled(it, u);
    hide LineOf, LineAmount, Scaled;
    HalfScaled(it.quantity as real, d);
    if d == 0.5 { PositiveLine(it); }
  }

  lemma ExactScaled(it: Item, u: int)
    ensures LineOf(it.quantity, u) as real - LineAmount(it) * 100.0
            == Scaled(it.quantity as real, u as real - it.unitPrice * 100.0)
  {
    var q := it.quantity as real;
    assert (it.quantity * u) as real == q * u as real;
    assert LineAmount(it) * 100.0 == q * (it.unitPrice * 100.0);
  }

  lemma PositiveLine(it: Item)
    requires it.quantity >= 1 && it.unitPrice > 0.0
    ensures LineAmount(it) > 0.0
  {
  }

  function Scaled(q: real, d: real): real {
    q * d
  }

  lemma HalfScaled(q: real, d: real)
    requires q >= 0.0 && -0.5 <= d <= 0.5
    ensures -q <= 2.0 * Scaled(q, d) <= q
    ensures q > 0.0 && d > -0.5 ==> 2.0 * Scaled(q, d) > -q
    ensures q > 0.0 && d < 0.5 ==> 2.0 * Scaled(q, d) < q
    ensures d == 0.0 ==> Scaled(q, d) == 0.0
  {
    Negated(q, d);
    hide Scaled;
    ProductSign(q, 0.5 - d);
    ProductSign(q, d + 0.5);
    Shifted(q, d, 0.5);
    Shifted(q, -d, 0.5);
    assert 0.5 - d == -d + 0.5;
  }

  lemma Negated(q: real, d: real)
    ensures Scaled(q, -d) == -Scaled(q, d) && Scaled(q, 0.0) == 0.0
  {
  }

  lemma ProductSign(a: real, b: real)
    requires a >= 0.0 && b >= 0.0
    ensures Scaled(a, b) >= 0.0 && (a > 0.0 && b > 0.0 ==> Scaled(a, b) > 0.0)
  {
  }

  lemma Shifted(q: real, d: real, h: real)
    ensures Scaled(q, d + h) == Scaled(q, d) + h * q && Scaled(q, h + d) == Scaled(q, d + h)
  {
  }

  /** A created order is pending, its lines are the items, and its total is off
      from the sum of its n line totals by at most n / 2 sen, rounded down; it is
      exact when all prices are whole sen. */
  lemma CreatedTotal(db: Db, id: nat, tenant: nat, details: string, expires: int, items: seq<Item>)
    requires InsertOrder(db, id, tenant, details, expires, items).Some?
    ensures var o := InsertOrder(db, id, tenant, details, expires, items).value.orders[id];
            o.status == Pending && o.lines == StoredLines(items)
            && -|items| <= 2 * (o.total - SumLineTotals(o.lines)) <= |items|
            && (WholePrices(items) ==> o.total == SumLineTotals(o.lines))
  {
    assert RoundSen(SumReal(LineAmounts(items))) >= 0;
    hide RoundSen, SumReal, SumSen, LineAmounts, Storable, WholeSen, SumLineTotals;
    TotalDrift(LineAmounts(items));
    StoredSum(items);
    if WholePrices(items) { WholeLines(items); }
  }

  function Copies(x: real, n: nat): (xs: seq<real>)
    ensures |xs| == n && forall i :: 0 <= i < n ==> xs[i] == x
  {
    seq(n, _ => x)
  }

  lemma {:induction false} CopiesSum(x: real, n: nat)
    ensures SumReal(Copies(x, n)) * 100.0 == n as real * (x * 100.0)
    ensures SumSen(Copies(x, n)) == LineOf(n, RoundSen(x))
  {
    if n > 0 {
      hide RoundSen;
      CopiesSum(x, n - 1);
      assert Copies(x, n)[..n - 1] == Copies(x, n - 1);
      assert n as real * (x * 100.0) == (n - 1) as real * (x * 100.0) + x * 100.0;
      assert LineOf(n, RoundSen(x)) == LineOf(n - 1, RoundSen(x)) + RoundSen(x);
    }
  }

  /** The bound is reached for every number of lines, in both directions: n lines
      of half a sen are stored as n sen, and n lines a little below it as none. */
  lemma DriftReached(n: nat) returns (up: seq<real>, down: seq<real>)
    ensures |up| == |down| == n
    ensures forall i :: 0 <= i < n ==> up[i] >= 0.0 && down[i] >= 0.0
    ensures SumSen(up) - RoundSen(SumReal(up)) == n / 2
    ensures RoundSen(SumReal(down)) - SumSen(down) == n / 2
  {
    var low := if n == 0 then 0.0 else (0.5 - 0.25 / n as real) / 100.0;
    up, down := Copies(0.005, n), Copies(low, n);
    CopiesSum(0.005, n);
    CopiesSum(low, n);
    assert RoundSen(0.005) == 1 by {
      assert 0.005 * 100.0 + 0.5 == 1.0;
    }
    HalfOf(n, SumReal(up));
    if n > 0 {
      assert low * 100.0 == 0.5 - 0.25 / n as real;
      QuarterOf(n, low * 100.0);
      assert RoundSen(low) == 0;
      BelowHalfOf(n, SumReal(down));
    }
  }

  lemma QuarterOf(n: nat, y: real)
    requires n > 0 && y == 0.5 - 0.25 / n as real
    ensures 0.25 <= y < 0.5 && n as real * y == n as real / 2.0 - 0.25
  {
    assert n as real * (0.25 / n as real) == 0.25;
  }

  lemma HalfOf(n: nat, x: real)
    requires x * 100.0 == n as real * (0.005 * 100.0)
    ensures n - RoundSen(x) == n / 2
  {
    assert x * 100.0 == n as real / 2.0;
    assert n == 2 * (n / 2) + n % 2;
    var half := n / 2;
    assert x * 100.0 + 0.5 == half as real + (n % 2) as real / 2.0 + 0.5;
  }

  lemma BelowHalfOf(n: nat, x: real)
    requires n > 0 && x * 100.0 == n as real / 2.0 - 0.25
    ensures RoundSen(x) == n / 2
  {
    assert n == 2 * (n / 2) + n % 2;
    var half := n / 2;
    assert x * 100.0 + 0.5 == half as real + (n % 2) as real / 2.0 + 0.25;
  }
}
