/** The load of migration/mudahurus_migrate/__main__.py into the target tables,
    in one transaction, and the counts of reconcile.py. */
module LegacyMigration {
  import opened Text
  import opened LegacyTransforms
  import Orders

  // ---- inserting ----

  /** What a table asks of a row: its checks, its foreign keys, the unique keys
      two rows must not share, and what ON CONFLICT (id) does. */
  datatype Rule<!R> = Rule(checks: R -> bool, refs: R -> bool, clash: (R, R) -> bool, merge: (R, R) -> R)

  type Table<R> = map<Id, R>

  predicate NoClash<R>(rule: Rule<R>, t: Table<R>, id: Id, r: R) {
    forall other :: other in t && other != id ==> !rule.clash(t[other], r)
  }

  function Insert<R(==)>(rule: Rule<R>, t: Table<R>, k: Keyed<R>): Option<Table<R>> {
    if !rule.checks(k.row) then None
    else if k.id in t then
      var merged := rule.merge(t[k.id], k.row);
      if merged == t[k.id] then Some(t)
      else if NoClash(rule, t, k.id, merged) then Some(t[k.id := merged]) else None
    else if rule.refs(k.row) && NoClash(rule, t, k.id, k.row) then Some(t[k.id := k.row]) else None
  }

  function Load<R(==)>(rule: Rule<R>, t: Table<R>, rows: seq<Keyed<R>>): Option<Table<R>> {
    if rows == [] then Some(t)
    else
      var before := Load(rule, t, rows[..|rows| - 1]);
      if before.None? then None else Insert(rule, before.value, rows[|rows| - 1])
  }

  ghost predicate DistinctIds<R(!new)>(rows: seq<Keyed<R>>) {
    forall i, j :: 0 <= i < j < |rows| ==> rows[i].id != rows[j].id
  }

  /** Loaded into an empty table, distinct ids give one row each. */
  lemma {:induction false} LoadFromEmpty<R(!new)>(rule: Rule<R>, rows: seq<Keyed<R>>)
    requires DistinctIds(rows) && Load(rule, map[], rows).Some?
    ensures var t := Load(rule, map[], rows).value;
            && |t| == |rows|
            && (forall i :: 0 <= i < |rows| ==>
                            rows[i].id in t && t[rows[i].id] == rows[i].row && rule.checks(rows[i].row))
            && (forall id :: id in t ==> exists i :: 0 <= i < |rows| && rows[i].id == id)
  {
    if rows != [] {
      var n := |rows| - 1;
      var front := rows[..n];
      LoadFromEmpty(rule, front);
      var u := Load(rule, map[], front).value;
      assert rows[n].id !in u by {
        assert forall i :: 0 <= i < n ==> front[i].id != rows[n].id;
      }
      var t := u[rows[n].id := rows[n].row];
      assert Load(rule, map[], rows) == Some(t);
      forall i | 0 <= i < |rows|
        ensures rows[i].id in t && t[rows[i].id] == rows[i].row && rule.checks(rows[i].row)
      {
        assert i < n ==> rows[i] == front[i];
      }
      forall id | id in t
        ensures exists i :: 0 <= i < |rows| && rows[i].id == id
      {
        if id in u {
          var i :| 0 <= i < n && front[i].id == id;
          assert rows[i].id == id;
        } else {
          assert rows[n].id == id;
        }
      }
    }
  }

  /** Rows that are all there, and that merging leaves as they are, change nothing. */
  lemma {:induction false} LoadAgain<R(!new)>(rule: Rule<R>, t: Table<R>, rows: seq<Keyed<R>>)
    requires forall i :: 0 <= i < |rows| ==>
                           rows[i].id in t && rule.checks(rows[i].row)
                           && rule.merge(t[rows[i].id], rows[i].row) == t[rows[i].id]
    ensures Load(rule, t, rows) == Some(t)
  {
    if rows != [] {
      var front := rows[..|rows| - 1];
      assert forall i :: 0 <= i < |front| ==> front[i] == rows[i];
      LoadAgain(rule, t, front);
    }
  }

  /** What holds of every row, and of every row that may be inserted, keeps holding. */
  lemma {:induction false} LoadKeeps<R(!new)>(rule: Rule<R>, t: Table<R>, rows: seq<Keyed<R>>, good: (Id, R) -> bool)
    requires Load(rule, t, rows).Some?
    requires forall id :: id in t ==> good(id, t[id])
    requires forall k :: k in rows && rule.refs(k.row) ==> good(k.id, k.row)
    requires forall id, r, s :: good(id, r) ==> good(id, rule.merge(r, s))
    ensures var u := Load(rule, t, rows).value; forall id :: id in u ==> good(id, u[id])
    ensures t.Keys <= Load(rule, t, rows).value.Keys
  {
    if rows != [] {
      var n := |rows| - 1;
      LoadKeeps(rule, t, rows[..n], good);
      var u := Load(rule, t, rows[..n]).value;
      var v := Insert(rule, u, rows[n]).value;
      assert rows[n] in rows;
      forall id | id in v
        ensures good(id, v[id])
      {
      }
    }
  }

  // ---- the tables ----

  datatype Db = Db(
    tenants: Table<TenantRow>, categories: Table<CategoryRow>, products: Table<ProductRow>,
    orders: Table<OrderRow>, items: Table<ItemRow>, payments: Table<PaymentRow>,
    customers: Table<CustomerRow>, coupons: Table<CouponRow>)

  const EMPTY := Db(map[], map[], map[], map[], map[], map[], map[], map[])

  /** NUMERIC(12,2) */
  predicate Fits(sen: int) {
    -1_000_000_000_000 < sen < 1_000_000_000_000
  }

  const STATUSES := {"pending", "payment_received", "payment_accepted", "shipped", "expired", "cancelled", "rejected"}

  function TenantRule(): Rule<TenantRow> {
    Rule((r: TenantRow) => true, (r: TenantRow) => true,
         (a: TenantRow, b: TenantRow) => a.username == b.username || a.email == b.email,
         (a: TenantRow, b: TenantRow) => a.(username := b.username, email := b.email))
  }

  function CategoryRule(tenants: Table<TenantRow>): Rule<CategoryRow> {
    Rule((r: CategoryRow) => true, (r: CategoryRow) => r.tenant in tenants,
         (a: CategoryRow, b: CategoryRow) => a.tenant == b.tenant && a.name == b.name,
         (a: CategoryRow, b: CategoryRow) => a.(name := b.name))
  }

  function ProductRule(tenants: Table<TenantRow>, categories: Table<CategoryRow>): Rule<ProductRow> {
    Rule((r: ProductRow) => r.unitPrice >= 0 && Fits(r.unitPrice),
         (r: ProductRow) => r.tenant in tenants && (r.category.Some? ==> r.category.value in categories),
         (a: ProductRow, b: ProductRow) => a.tenant == b.tenant && a.sku == b.sku,
         (a: ProductRow, b: ProductRow) => a.(productName := b.productName, unitPrice := b.unitPrice))
  }

  function OrderRule(tenants: Table<TenantRow>, dates: Dates): Rule<OrderRow> {
    Rule((r: OrderRow) => r.status in STATUSES && r.totalPrice >= 0 && Fits(r.totalPrice)
         && dates.isTimestamp(r.expires),
         (r: OrderRow) => r.tenant in tenants,
         (a: OrderRow, b: OrderRow) => false,
         (a: OrderRow, b: OrderRow) => a)
  }

  /** The order of an item or a payment is in the table by then: it has just been
      inserted, or was there before. LinkedKept proves it. */
  function ItemRule(): Rule<ItemRow> {
    Rule((r: ItemRow) => 0 < r.quantity < 0x8000_0000 && r.unitPrice >= 0 && Fits(r.unitPrice) && Fits(r.lineTotal),
         (r: ItemRow) => true, (a: ItemRow, b: ItemRow) => false, (a: ItemRow, b: ItemRow) => a)
  }

  function PaymentRule(): Rule<PaymentRow> {
    Rule((r: PaymentRow) => Fits(r.amount),
         (r: PaymentRow) => true, (a: PaymentRow, b: PaymentRow) => false, (a: PaymentRow, b: PaymentRow) => a)
  }

  function CustomerRule(tenants: Table<TenantRow>, dates: Dates): Rule<CustomerRow> {
    Rule((r: CustomerRow) => r.dob.Some? ==> dates.isDate(r.dob.value),
         (r: CustomerRow) => r.tenant in tenants,
         (a: CustomerRow, b: CustomerRow) => a.tenant == b.tenant && a.loyaltyCode == b.loyaltyCode,
         (a: CustomerRow, b: CustomerRow) => a)
  }

  function CouponRule(tenants: Table<TenantRow>, products: Table<ProductRow>, dates: Dates): Rule<CouponRow> {
    Rule((r: CouponRow) => r.expires.Some? ==> dates.isTimestamp(r.expires.value),
         (r: CouponRow) => r.tenant in tenants && (r.product.Some? ==> r.product.value in products),
         (a: CouponRow, b: CouponRow) => false,
         (a: CouponRow, b: CouponRow) => a)
  }

  // ---- the load ----

  function Transformed<L, R>(transform: L -> Keyed<R>, rows: seq<L>): (out: seq<Keyed<R>>)
    ensures |out| == |rows| && forall i :: 0 <= i < |rows| ==> out[i] == transform(rows[i])
  {
    seq(|rows|, i requires 0 <= i < |rows| => transform(rows[i]))
  }

  function ProductTransform(float: ParseFloat): LegacyProduct -> Keyed<ProductRow> {
    r => TransformProduct(float, r)
  }

  function HeaderTransform(float: ParseFloat, dates: Dates): LegacyOrder -> Keyed<OrderRow> {
    r => TransformHeader(float, dates, r)
  }

  function ItemTransform(float: ParseFloat): LegacyOrder -> Keyed<ItemRow> {
    r => TransformItem(float, r)
  }

  function UserRows(src: Legacy): seq<Keyed<TenantRow>> {
    Transformed(TransformUser, SafeRows(src.users))
  }

  function CategoryRows(src: Legacy): seq<Keyed<CategoryRow>> {
    Transformed(TransformCategory, SafeRows(src.categories))
  }

  function ProductRows(float: ParseFloat, src: Legacy): seq<Keyed<ProductRow>> {
    Transformed(ProductTransform(float), SafeRows(src.products))
  }

  function HeaderRows(float: ParseFloat, dates: Dates, rows: seq<LegacyOrder>): seq<Keyed<OrderRow>> {
    Transformed(HeaderTransform(float, dates), rows)
  }

  function ItemRows(float: ParseFloat, rows: seq<LegacyOrder>): seq<Keyed<ItemRow>> {
    Transformed(ItemTransform(float), rows)
  }

  function PaymentRows(float: ParseFloat, rows: seq<LegacyOrder>): seq<Keyed<PaymentRow>> {
    if rows == [] then []
    else
      var p := TransformPayment(float, rows[|rows| - 1]);
      PaymentRows(float, rows[..|rows| - 1]) + if p.Some? then [p.value] else []
  }

  function CustomerRows(src: Legacy): seq<Keyed<CustomerRow>> {
    Transformed(TransformCustomer, SafeRows(src.customers))
  }

  function CouponRows(src: Legacy): seq<Keyed<CouponRow>> {
    Transformed(TransformCoupon, SafeRows(src.coupons))
  }

  /** The database `after` is what one successful run makes of `before`. */
  ghost predicate Migrates(before: Db, src: Legacy, float: ParseFloat, dates: Dates, after: Db) {
    var orders := SafeRows(src.orders);
    && Load(TenantRule(), before.tenants, UserRows(src)) == Some(after.tenants)
    && Load(CategoryRule(after.tenants), before.categories, CategoryRows(src)) == Some(after.categories)
    && Load(ProductRule(after.tenants, after.categories), before.products, ProductRows(float, src))
       == Some(after.products)
    && Load(OrderRule(after.tenants, dates), before.orders, HeaderRows(float, dates, orders)) == Some(after.orders)
    && Load(ItemRule(), before.items, ItemRows(float, orders)) == Some(after.items)
    && Load(PaymentRule(), before.payments, PaymentRows(float, orders)) == Some(after.payments)
    && Load(CustomerRule(after.tenants, dates), before.customers, CustomerRows(src)) == Some(after.customers)
    && Load(CouponRule(after.tenants, after.products, dates), before.coupons, CouponRows(src)) == Some(after.coupons)
  }

  lemma LoadStep<R>(rule: Rule<R>, t: Table<R>, rows: seq<Keyed<R>>, i: nat)
    requires i < |rows|
    ensures Load(rule, t, rows[..i + 1]) ==
            var before := Load(rule, t, rows[..i]);
            if before.None? then None else Insert(rule, before.value, rows[i])
  {
    assert rows[..i + 1][..i] == rows[..i];
  }

  /** A row the table refuses refuses every longer list. */
  lemma {:induction false} LoadRefused<R>(rule: Rule<R>, t: Table<R>, rows: seq<Keyed<R>>, i: nat)
    requires i <= |rows| && Load(rule, t, rows[..i]).None?
    ensures Load(rule, t, rows).None?
    decreases |rows|
  {
    if i < |rows| {
      assert rows[..|rows| - 1][..i] == rows[..i];
      LoadRefused(rule, t, rows[..|rows| - 1], i);
    } else {
      assert rows[..i] == rows;
    }
  }

  method LoadRows<L, R(==)>(rule: Rule<R>, t: Table<R>, transform: L -> Keyed<R>, rows: seq<L>)
    returns (out: Option<Table<R>>, count: nat)
    ensures out == Load(rule, t, Transformed(transform, rows))
    ensures out.Some? ==> count == |rows|
  {
    var table := t;
    ghost var keyed := Transformed(transform, rows);
    count := 0;
    while count < |rows|
      invariant 0 <= count <= |rows|
      invariant Load(rule, t, keyed[..count]) == Some(table)
    {
      var inserted := Insert(rule, table, transform(rows[count]));
      LoadStep(rule, t, keyed, count);
      if inserted.None? {
        LoadRefused(rule, t, keyed, count + 1);
        return None, count;
      }
      table := inserted.value;
      count := count + 1;
    }
    assert keyed[..count] == keyed;
    out := Some(table);
  }

  /** The orders loop: three inserts for each legacy row. */
  method LoadOrders(db: Db, float: ParseFloat, dates: Dates, rows: seq<LegacyOrder>)
    returns (out: Option<Db>, orders: nat, items: nat, payments: nat)
    ensures out.Some? ==>
              && out.value == db.(orders := out.value.orders, items := out.value.items, payments := out.value.payments)
              && Load(OrderRule(db.tenants, dates), db.orders, HeaderRows(float, dates, rows)) == Some(out.value.orders)
              && Load(ItemRule(), db.items, ItemRows(float, rows)) == Some(out.value.items)
              && Load(PaymentRule(), db.payments, PaymentRows(float, rows)) == Some(out.value.payments)
              && orders == items == |rows| && payments == |PaymentRows(float, rows)|
    ensures out.None? ==>
              || Load(OrderRule(db.tenants, dates), db.orders, HeaderRows(float, dates, rows)).None?
              || Load(ItemRule(), db.items, ItemRows(float, rows)).None?
              || Load(PaymentRule(), db.payments, PaymentRows(float, rows)).None?
  {
    hide Load, Insert, OrderRule, ItemRule, PaymentRule, TransformHeader, TransformItem, TransformPayment;
    var work := db;
    var rule := OrderRule(db.tenants, dates);
    ghost var headers, lines := HeaderRows(float, dates, rows), ItemRows(float, rows);
    LoadNothing(rule, db.orders);
    LoadNothing(ItemRule(), db.items);
    LoadNothing(PaymentRule(), db.payments);
    orders, items, payments := 0, 0, 0;
    while orders < |rows|
      invariant 0 <= orders <= |rows| && items == orders && payments == |PaymentRows(float, rows[..orders])|
      invariant work == db.(orders := work.orders, items := work.items, payments := work.payments)
      invariant Load(rule, db.orders, headers[..orders]) == Some(work.orders)
      invariant Load(ItemRule(), db.items, lines[..orders]) == Some(work.items)
      invariant Load(PaymentRule(), db.payments, PaymentRows(float, rows[..orders])) == Some(work.payments)
    {
      var row := rows[orders];
      LoadStep(rule, db.orders, headers, orders);
      LoadStep(ItemRule(), db.items, lines, orders);
      PaymentStep(db.payments, float, rows, orders);
      var header := Insert(rule, work.orders, TransformHeader(float, dates, row));
      if header.None? {
        LoadRefused(rule, db.orders, headers, orders + 1);
        return None, orders, items, payments;
      }
      var item := Insert(ItemRule(), work.items, TransformItem(float, row));
      if item.None? {
        LoadRefused(ItemRule(), db.items, lines, orders + 1);
        return None, orders, items, payments;
      }
      work := work.(orders := header.value, items := item.value);
      var payment := TransformPayment(float, row);
      if payment.Some? {
        var paid := Insert(PaymentRule(), work.payments, payment.value);
        if paid.None? {
          PaymentsRefused(db.payments, float, rows, orders + 1);
          return None, orders, items, payments;
        }
        work := work.(payments := paid.value);
        payments := payments + 1;
      }
      orders, items := orders + 1, items + 1;
    }
    assert headers[..orders] == headers && lines[..orders] == lines && rows[..orders] == rows;
    out := Some(work);
  }

  lemma LoadNothing<R>(rule: Rule<R>, t: Table<R>)
    ensures Load(rule, t, []) == Some(t)
  {
  }

  lemma PaymentStep(t: Table<PaymentRow>, float: ParseFloat, rows: seq<LegacyOrder>, i: nat)
    requires i < |rows|
    ensures var p, before := TransformPayment(float, rows[i]), PaymentRows(float, rows[..i]);
            && PaymentRows(float, rows[..i + 1]) == before + (if p.Some? then [p.value] else [])
            && Load(PaymentRule(), t, PaymentRows(float, rows[..i + 1])) ==
               if p.None? || Load(PaymentRule(), t, before).None? then Load(PaymentRule(), t, before)
               else Insert(PaymentRule(), Load(PaymentRule(), t, before).value, p.value)
  {
    hide Insert, PaymentRule, TransformPayment;
    assert rows[..i + 1][..i] == rows[..i];
    var p, before := TransformPayment(float, rows[i]), PaymentRows(float, rows[..i]);
    if p.Some? {
      assert (before + [p.value])[..|before|] == before;
    } else {
      assert before + [] == before;
    }
  }

  lemma {:induction false} PaymentRowsPrefix(float: ParseFloat, rows: seq<LegacyOrder>, i: nat)
    requires i <= |rows|
    ensures PaymentRows(float, rows[..i]) <= PaymentRows(float, rows)
    decreases |rows|
  {
    if i < |rows| {
      assert rows[..|rows| - 1][..i] == rows[..i];
      PaymentRowsPrefix(float, rows[..|rows| - 1], i);
    } else {
      assert rows[..i] == rows;
    }
  }

  lemma PaymentsRefused(t: Table<PaymentRow>, float: ParseFloat, rows: seq<LegacyOrder>, i: nat)
    requires i <= |rows| && Load(PaymentRule(), t, PaymentRows(float, rows[..i])).None?
    ensures Load(PaymentRule(), t, PaymentRows(float, rows)).None?
  {
    hide Load, PaymentRule;
    PaymentRowsPrefix(float, rows, i);
    var part := PaymentRows(float, rows[..i]);
    assert PaymentRows(float, rows)[..|part|] == part;
    LoadRefused(PaymentRule(), t, PaymentRows(float, rows), |part|);
  }

  datatype Counts = Counts(
    tenants: nat, categories: nat, products: nat, orders: nat, items: nat, payments: nat, customers: nat, coupons: nat)

  class Target {
    var db: Db

    constructor ()
      ensures db == EMPTY
    {
      db := EMPTY;
    }

    /** cmd_migrate: all tables in one transaction. The first refused row rolls
        everything back. */
    method Migrate(src: Legacy, float: ParseFloat, dates: Dates) returns (loaded: Option<Counts>)
      modifies this
      ensures loaded.Some? ==> Migrates(old(db), src, float, dates, db)
      ensures loaded.Some? ==>
                loaded.value == Counts(|SafeRows(src.users)|, |SafeRows(src.categories)|, |SafeRows(src.products)|,
                                       |SafeRows(src.orders)|, |SafeRows(src.orders)|,
                                       |PaymentRows(float, SafeRows(src.orders))|,
                                       |SafeRows(src.customers)|, |SafeRows(src.coupons)|)
      ensures loaded.None? ==> db == old(db) && forall after :: !Migrates(old(db), src, float, dates, after)
    {
      hide Load, TenantRule, CategoryRule, ProductRule, OrderRule, ItemRule, PaymentRule, CustomerRule, CouponRule;
      var tenants, n1 := LoadRows(TenantRule(), db.tenants, TransformUser, SafeRows(src.users));
      if tenants.None? {
        return None;
      }
      var categories, n2 := LoadRows(CategoryRule(tenants.value), db.categories, TransformCategory,
                                     SafeRows(src.categories));
      if categories.None? {
        return None;
      }
      var products, n3 := LoadRows(ProductRule(tenants.value, categories.value), db.products,
                                   ProductTransform(float), SafeRows(src.products));
      if products.None? {
        return None;
      }
      var work := db.(tenants := tenants.value, categories := categories.value, products := products.value);
      var ordered, n4, n5, n6 := LoadOrders(work, float, dates, SafeRows(src.orders));
      if ordered.None? {
        return None;
      }
      work := ordered.value;
      var customers, n7 := LoadRows(CustomerRule(tenants.value, dates), work.customers, TransformCustomer,
                                    SafeRows(src.customers));
      if customers.None? {
        return None;
      }
      var coupons, n8 := LoadRows(CouponRule(tenants.value, products.value, dates), work.coupons,
                                  TransformCoupon, SafeRows(src.coupons));
      if coupons.None? {
        return None;
      }
      db := work.(customers := customers.value, coupons := coupons.value);
      loaded := Some(Counts(n1, n2, n3, n4, n5, n6, n7, n8));
    }
  }

  // ---- distinct ids ----

  ghost predicate DistinctOn<L(!new)>(rows: seq<L>, id: L -> nat) {
    forall i, j :: 0 <= i < j < |rows| ==> id(rows[i]) != id(rows[j])
  }

  /** The legacy primary keys. */
  ghost predicate LegacyKeys(src: Legacy) {
    && DistinctOn(src.users.rows, (r: LegacyUser) => r.id)
    && DistinctOn(src.categories.rows, (r: LegacyCategory) => r.id)
    && DistinctOn(src.products.rows, (r: LegacyProduct) => r.id)
    && DistinctOn(src.orders.rows, (r: LegacyOrder) => r.id)
    && DistinctOn(src.customers.rows, (r: LegacyCustomer) => r.id)
    && DistinctOn(src.coupons.rows, (r: LegacyCoupon) => r.id)
  }

  lemma DistinctRows<L(!new), R(!new)>(rows: seq<L>, id: L -> nat, user: L -> nat, kind: Kind, transform: L -> Keyed<R>)
    requires DistinctOn(rows, id)
    requires forall r :: transform(r).id == RowName(kind, id(r), user(r))
    ensures DistinctIds(Transformed(transform, rows))
  {
    hide RowName;
    var out := Transformed(transform, rows);
    forall i, j | 0 <= i < j < |out|
      ensures out[i].id != out[j].id
    {
      NamesInjective(kind, id(rows[i]), user(rows[i]), kind, id(rows[j]), user(rows[j]));
    }
  }

  lemma DistinctUsers(rows: seq<LegacyUser>)
    requires DistinctOn(rows, (r: LegacyUser) => r.id)
    ensures DistinctIds(Transformed(TransformUser, rows))
  {
    var out := Transformed(TransformUser, rows);
    forall i, j | 0 <= i < j < |out|
      ensures out[i].id != out[j].id
    {
      NamesInjective(Order, 0, rows[i].id, Order, 0, rows[j].id);
    }
  }

  lemma {:induction false} PaymentOrigin(float: ParseFloat, rows: seq<LegacyOrder>, i: nat) returns (j: nat)
    requires i < |PaymentRows(float, rows)|
    ensures j < |rows| && PaymentRows(float, rows)[i].id == RowName(Payment, rows[j].id, rows[j].userId)
    decreases |rows|
  {
    hide RowName;
    var front := rows[..|rows| - 1];
    if i < |PaymentRows(float, front)| {
      j := PaymentOrigin(float, front, i);
    } else {
      j := |rows| - 1;
    }
  }

  lemma {:induction false} DistinctPayments(float: ParseFloat, rows: seq<LegacyOrder>)
    requires DistinctOn(rows, (r: LegacyOrder) => r.id)
    ensures DistinctIds(PaymentRows(float, rows))
  {
    hide RowName;
    if rows != [] {
      var n := |rows| - 1;
      var front := rows[..n];
      DistinctPayments(float, front);
      var p := TransformPayment(float, rows[n]);
      if p.Some? {
        forall i | 0 <= i < |PaymentRows(float, front)|
          ensures PaymentRows(float, front)[i].id != p.value.id
        {
          var j := PaymentOrigin(float, front, i);
          assert rows[j].id != rows[n].id;
          NamesInjective(Payment, rows[j].id, rows[j].userId, Payment, rows[n].id, rows[n].userId);
        }
      }
    }
  }

  lemma DistinctSafe<L(!new)>(s: Source<L>, id: L -> nat)
    requires DistinctOn(s.rows, id)
    ensures DistinctOn(SafeRows(s), id)
  {
  }

  /** No two rows of one run have the same id. */
  lemma AllDistinct(src: Legacy, float: ParseFloat, dates: Dates)
    requires LegacyKeys(src)
    ensures DistinctIds(UserRows(src)) && DistinctIds(CategoryRows(src)) && DistinctIds(ProductRows(float, src))
    ensures DistinctIds(HeaderRows(float, dates, SafeRows(src.orders)))
            && DistinctIds(ItemRows(float, SafeRows(src.orders)))
    ensures DistinctIds(PaymentRows(float, SafeRows(src.orders)))
    ensures DistinctIds(CustomerRows(src)) && DistinctIds(CouponRows(src))
  {
    hide RowName, TenantName, DistinctOn, DistinctIds, SafeRows;
    DistinctSafe(src.users, (r: LegacyUser) => r.id);
    DistinctUsers(SafeRows(src.users));
    DistinctSafe(src.categories, (r: LegacyCategory) => r.id);
    DistinctRows(SafeRows(src.categories), (r: LegacyCategory) => r.id, (r: LegacyCategory) => r.userId,
                 Category, TransformCategory);
    DistinctSafe(src.products, (r: LegacyProduct) => r.id);
    DistinctRows(SafeRows(src.products), (r: LegacyProduct) => r.id, (r: LegacyProduct) => r.userId,
                 Product, ProductTransform(float));
    DistinctSafe(src.orders, (r: LegacyOrder) => r.id);
    DistinctRows(SafeRows(src.orders), (r: LegacyOrder) => r.id, (r: LegacyOrder) => r.userId,
                 Order, HeaderTransform(float, dates));
    DistinctRows(SafeRows(src.orders), (r: LegacyOrder) => r.id, (r: LegacyOrder) => r.userId,
                 OrderItem, ItemTransform(float));
    DistinctPayments(float, SafeRows(src.orders));
    DistinctSafe(src.customers, (r: LegacyCustomer) => r.id);
    DistinctRows(SafeRows(src.customers), (r: LegacyCustomer) => r.id, (r: LegacyCustomer) => r.userId,
                 Customer, TransformCustomer);
    DistinctSafe(src.coupons, (r: LegacyCoupon) => r.id);
    DistinctRows(SafeRows(src.coupons), (r: LegacyCoupon) => r.id, (r: LegacyCoupon) => r.userId,
                 Coupon, TransformCoupon);
  }

  // ---- reconciling ----

  /** A count that fails is None. */
  datatype Pair = Pair(legacy: Option<nat>, target: Option<nat>)

  predicate Matches(p: Pair) {
    p.legacy.Some? && p.target.Some? && p.legacy.value == p.target.value
  }

  predicate AllMatch(pairs: seq<Pair>) {
    forall i :: 0 <= i < |pairs| ==> Matches(pairs[i])
  }

  method Reconcile(pairs: seq<Pair>) returns (ok: bool)
    ensures ok == AllMatch(pairs)
  {
    ok := true;
    var i := 0;
    while i < |pairs|
      invariant 0 <= i <= |pairs|
      invariant ok <==> forall j :: 0 <= j < i ==> Matches(pairs[j])
    {
      ok := ok && Matches(pairs[i]);
      i := i + 1;
    }
  }

  /** The six pairs, counted when every table can be read. */
  function CountPairs(src: Legacy, db: Db): seq<Pair> {
    [Pair(Some(|src.users.rows|), Some(|db.tenants|)), Pair(Some(|src.categories.rows|), Some(|db.categories|)),
     Pair(Some(|src.products.rows|), Some(|db.products|)), Pair(Some(|src.orders.rows|), Some(|db.orders|)),
     Pair(Some(|src.customers.rows|), Some(|db.customers|)), Pair(Some(|src.coupons.rows|), Some(|db.coupons|))]
  }

  predicate NothingUnread<T(!new)>(s: Source<T>) {
    s.readable || s.rows == []
  }

  /** Into an empty target, every row read becomes a row of its own. */
  lemma EveryRowLands(src: Legacy, float: ParseFloat, dates: Dates, db: Db)
    requires LegacyKeys(src) && Migrates(EMPTY, src, float, dates, db)
    ensures |db.tenants| == |SafeRows(src.users)| && |db.categories| == |SafeRows(src.categories)|
    ensures |db.products| == |SafeRows(src.products)| && |db.orders| == |SafeRows(src.orders)| == |db.items|
    ensures |db.payments| == |PaymentRows(float, SafeRows(src.orders))|
    ensures |db.customers| == |SafeRows(src.customers)| && |db.coupons| == |SafeRows(src.coupons)|
  {
    AllDistinct(src, float, dates);
    hide DistinctIds, LegacyKeys, TenantRule, CategoryRule, ProductRule, OrderRule, CustomerRule, CouponRule, Load,
         SafeRows;
    LoadFromEmpty(TenantRule(), UserRows(src));
    LoadFromEmpty(CategoryRule(db.tenants), CategoryRows(src));
    LoadFromEmpty(ProductRule(db.tenants, db.categories), ProductRows(float, src));
    LoadFromEmpty(OrderRule(db.tenants, dates), HeaderRows(float, dates, SafeRows(src.orders)));
    LoadFromEmpty(ItemRule(), ItemRows(float, SafeRows(src.orders)));
    LoadFromEmpty(PaymentRule(), PaymentRows(float, SafeRows(src.orders)));
    LoadFromEmpty(CustomerRule(db.tenants, dates), CustomerRows(src));
    LoadFromEmpty(CouponRule(db.tenants, db.products, dates), CouponRows(src));
  }

  /** After a successful run into an empty target, reconcile reports ok exactly
      when the tables that could not be read had no rows. */
  lemma ReconcileOkIff(src: Legacy, float: ParseFloat, dates: Dates, db: Db)
    requires LegacyKeys(src) && Migrates(EMPTY, src, float, dates, db)
    ensures AllMatch(CountPairs(src, db)) <==>
            NothingUnread(src.users) && NothingUnread(src.categories) && NothingUnread(src.products)
            && NothingUnread(src.orders) && NothingUnread(src.customers) && NothingUnread(src.coupons)
  {
    EveryRowLands(src, float, dates, db);
    hide Migrates, LegacyKeys, AllMatch, Matches, NothingUnread, SafeRows;
    SixMatch(Pair(Some(|src.users.rows|), Some(|db.tenants|)), Pair(Some(|src.categories.rows|), Some(|db.categories|)),
             Pair(Some(|src.products.rows|), Some(|db.products|)), Pair(Some(|src.orders.rows|), Some(|db.orders|)),
             Pair(Some(|src.customers.rows|), Some(|db.customers|)),
             Pair(Some(|src.coupons.rows|), Some(|db.coupons|)));
    UnreadIff(src.users, |db.tenants|);
    UnreadIff(src.categories, |db.categories|);
    UnreadIff(src.products, |db.products|);
    UnreadIff(src.orders, |db.orders|);
    UnreadIff(src.customers, |db.customers|);
    UnreadIff(src.coupons, |db.coupons|);
  }

  lemma UnreadIff<T(!new)>(s: Source<T>, target: nat)
    requires target == |SafeRows(s)|
    ensures Matches(Pair(Some(|s.rows|), Some(target))) <==> NothingUnread(s)
  {
  }

  lemma SixMatch(a: Pair, b: Pair, c: Pair, d: Pair, e: Pair, f: Pair)
    ensures AllMatch([a, b, c, d, e, f]) <==>
            Matches(a) && Matches(b) && Matches(c) && Matches(d) && Matches(e) && Matches(f)
  {
    hide Matches;
    var pairs := [a, b, c, d, e, f];
    assert pairs[0] == a && pairs[1] == b && pairs[2] == c && pairs[3] == d && pairs[4] == e && pairs[5] == f;
  }

  // ---- running again ----

  /** The same dates read at a later time: only the clock has moved. */
  ghost predicate Later(dates: Dates, later: Dates) {
    && later.plusThree == dates.plusThree && later.isTimestamp == dates.isTimestamp && later.isDate == dates.isDate
    && forall n :: later.isTimestamp(later.clock(n))
  }

  lemma HeaderLater(float: ParseFloat, dates: Dates, later: Dates, r: LegacyOrder, tenants: Table<TenantRow>)
    requires Later(dates, later) && OrderRule(tenants, dates).checks(TransformHeader(float, dates, r).row)
    ensures OrderRule(tenants, later).checks(TransformHeader(float, later, r).row)
    ensures TransformHeader(float, later, r).id == TransformHeader(float, dates, r).id
  {
    hide RowName, Orders.RoundSen, Clean, Total;
  }

  /** After a load each row, merged into its table once more, changes nothing. */
  lemma {:induction false} LoadedRows<R(!new)>(rule: Rule<R>, t: Table<R>, rows: seq<Keyed<R>>)
    requires DistinctIds(rows) && Load(rule, t, rows).Some?
    requires forall r :: rule.merge(r, r) == r
    requires forall r, s :: rule.merge(rule.merge(r, s), s) == rule.merge(r, s)
    ensures var u := Load(rule, t, rows).value;
            forall i :: 0 <= i < |rows| ==>
                          rows[i].id in u && rule.checks(rows[i].row)
                          && rule.merge(u[rows[i].id], rows[i].row) == u[rows[i].id]
  {
    if rows != [] {
      var n := |rows| - 1;
      var front := rows[..n];
      LoadedRows(rule, t, front);
      var u, v := Load(rule, t, front).value, Load(rule, t, rows).value;
      InsertedRow(rule, u, rows[n]);
      hide Load, Insert;
      forall i | 0 <= i < n
        ensures rows[i].id in v && v[rows[i].id] == u[rows[i].id] && rule.checks(rows[i].row)
      {
        assert rows[i] == front[i] && rows[i].id != rows[n].id;
      }
    }
  }

  lemma InsertedRow<R>(rule: Rule<R>, u: Table<R>, k: Keyed<R>)
    requires Insert(rule, u, k).Some?
    requires rule.merge(k.row, k.row) == k.row
    requires k.id in u ==> rule.merge(rule.merge(u[k.id], k.row), k.row) == rule.merge(u[k.id], k.row)
    ensures var v := Insert(rule, u, k).value;
            && rule.checks(k.row) && k.id in v && rule.merge(v[k.id], k.row) == v[k.id]
            && (forall id :: id in u ==> id in v) && (forall id :: id in u && id != k.id ==> v[id] == u[id])
  {
  }

  lemma HeadersAgain(src: Legacy, float: ParseFloat, dates: Dates, later: Dates, before: Table<OrderRow>, db: Db)
    requires Later(dates, later) && DistinctIds(HeaderRows(float, dates, SafeRows(src.orders)))
    requires Load(OrderRule(db.tenants, dates), before, HeaderRows(float, dates, SafeRows(src.orders)))
             == Some(db.orders)
    ensures Load(OrderRule(db.tenants, later), db.orders, HeaderRows(float, later, SafeRows(src.orders)))
            == Some(db.orders)
  {
    var rows := SafeRows(src.orders);
    var first, again := HeaderRows(float, dates, rows), HeaderRows(float, later, rows);
    LoadedRows(OrderRule(db.tenants, dates), before, first);
    forall i | 0 <= i < |again|
      ensures again[i].id in db.orders && OrderRule(db.tenants, later).checks(again[i].row)
      ensures OrderRule(db.tenants, later).merge(db.orders[again[i].id], again[i].row) == db.orders[again[i].id]
    {
      hide Load, TransformHeader;
      assert first[i] == TransformHeader(float, dates, rows[i]) && again[i] == TransformHeader(float, later, rows[i]);
      HeaderLater(float, dates, later, rows[i], db.tenants);
    }
    LoadAgain(OrderRule(db.tenants, later), db.orders, again);
  }

  lemma SameRowsAgain<R(!new)>(rule: Rule<R>, before: Table<R>, rows: seq<Keyed<R>>, t: Table<R>)
    requires DistinctIds(rows) && Load(rule, before, rows) == Some(t)
    requires forall r :: rule.merge(r, r) == r
    requires forall r, s :: rule.merge(rule.merge(r, s), s) == rule.merge(r, s)
    ensures Load(rule, t, rows) == Some(t)
  {
    LoadedRows(rule, before, rows);
    LoadAgain(rule, t, rows);
  }

  /** Whatever the target held, a second run of the same tables, whenever it is
      made, changes nothing. */
  lemma RunAgainChangesNothing(before: Db, src: Legacy, float: ParseFloat, dates: Dates, later: Dates, db: Db)
    requires LegacyKeys(src) && Later(dates, later) && Migrates(before, src, float, dates, db)
    ensures Migrates(db, src, float, later, db)
  {
    AllDistinct(src, float, dates);
    hide DistinctIds, LegacyKeys, Load;
    var orders := SafeRows(src.orders);
    SameRowsAgain(TenantRule(), before.tenants, UserRows(src), db.tenants);
    SameRowsAgain(CategoryRule(db.tenants), before.categories, CategoryRows(src), db.categories);
    SameRowsAgain(ProductRule(db.tenants, db.categories), before.products, ProductRows(float, src), db.products);
    HeadersAgain(src, float, dates, later, before.orders, db);
    SameRowsAgain(ItemRule(), before.items, ItemRows(float, orders), db.items);
    SameRowsAgain(PaymentRule(), before.payments, PaymentRows(float, orders), db.payments);
    SameRowsAgain(CustomerRule(db.tenants, dates), before.customers, CustomerRows(src), db.customers);
    SameRowsAgain(CouponRule(db.tenants, db.products, dates), before.coupons, CouponRows(src), db.coupons);
    assert CustomerRule(db.tenants, later) == CustomerRule(db.tenants, dates);
    assert CouponRule(db.tenants, db.products, later) == CouponRule(db.tenants, db.products, dates);
  }

  // ---- references ----

  ghost predicate Owned(kind: Kind, id: Id, tenant: Id) {
    exists k, u :: id == RowName(kind, k, u) && tenant == TenantName(u)
  }

  /** A reference, when there is one, leads to a row of the table and is owned by
      the tenant that holds it. */
  ghost predicate Leads<R>(kind: Kind, target: Option<Id>, tenant: Id, t: Table<R>) {
    target.Some? ==> target.value in t && Owned(kind, target.value, tenant)
  }

  ghost predicate Linked(db: Db) {
    && (forall id :: id in db.categories ==> Owned(Category, id, db.categories[id].tenant))
    && (forall id :: id in db.products ==> Owned(Product, id, db.products[id].tenant))
    && (forall id :: id in db.products ==>
                       Leads(Category, db.products[id].category, db.products[id].tenant, db.categories))
    && (forall id :: id in db.coupons ==> Leads(Product, db.coupons[id].product, db.coupons[id].tenant, db.products))
    && (forall id :: id in db.items ==> db.items[id].order in db.orders)
    && (forall id :: id in db.payments ==> db.payments[id].order in db.orders)
  }

  lemma OwnedByRef(kind: Kind, legacyId: nat, userId: nat)
    ensures Owned(kind, RowName(kind, legacyId, userId), TenantName(userId))
  {
  }

  lemma LinkCategories(before: Db, src: Legacy, after: Db)
    requires Linked(before) && Load(CategoryRule(after.tenants), before.categories, CategoryRows(src))
             == Some(after.categories)
    ensures forall id :: id in after.categories ==> Owned(Category, id, after.categories[id].tenant)
    ensures before.categories.Keys <= after.categories.Keys
  {
    hide Load, RowName, TenantName;
    var rows := CategoryRows(src);
    forall k | k in rows
      ensures Owned(Category, k.id, k.row.tenant)
    {
      var i :| 0 <= i < |rows| && rows[i] == k;
      OwnedByRef(Category, SafeRows(src.categories)[i].id, SafeRows(src.categories)[i].userId);
    }
    LoadKeeps(CategoryRule(after.tenants), before.categories, rows,
              (id, r: CategoryRow) => Owned(Category, id, r.tenant));
  }

  ghost predicate ProductLinked(categories: Table<CategoryRow>, id: Id, r: ProductRow) {
    Owned(Product, id, r.tenant) && Leads(Category, r.category, r.tenant, categories)
  }

  lemma LinkProducts(before: Db, src: Legacy, float: ParseFloat, after: Db)
    requires Linked(before) && before.categories.Keys <= after.categories.Keys
    requires Load(ProductRule(after.tenants, after.categories), before.products, ProductRows(float, src))
             == Some(after.products)
    ensures forall id :: id in after.products ==> ProductLinked(after.categories, id, after.products[id])
    ensures before.products.Keys <= after.products.Keys
  {
    hide Load, RowName, TenantName, Orders.RoundSen;
    var rows, rule := ProductRows(float, src), ProductRule(after.tenants, after.categories);
    forall k | k in rows && rule.refs(k.row)
      ensures ProductLinked(after.categories, k.id, k.row)
    {
      var i :| 0 <= i < |rows| && rows[i] == k;
      var r := SafeRows(src.products)[i];
      OwnedByRef(Product, r.id, r.userId);
      if k.row.category.Some? {
        OwnedByRef(Category, r.categoryId.value, r.userId);
      }
    }
    LoadKeeps(rule, before.products, rows, (id, r: ProductRow) => ProductLinked(after.categories, id, r));
  }

  lemma LinkCoupons(before: Db, src: Legacy, dates: Dates, after: Db)
    requires Linked(before) && before.products.Keys <= after.products.Keys
    requires Load(CouponRule(after.tenants, after.products, dates), before.coupons, CouponRows(src))
             == Some(after.coupons)
    ensures forall id :: id in after.coupons ==> Leads(Product, after.coupons[id].product, after.coupons[id].tenant,
                                                       after.products)
  {
    hide Load, RowName, TenantName;
    var rows, rule := CouponRows(src), CouponRule(after.tenants, after.products, dates);
    forall k | k in rows && rule.refs(k.row)
      ensures Leads(Product, k.row.product, k.row.tenant, after.products)
    {
      var i :| 0 <= i < |rows| && rows[i] == k;
      var r := SafeRows(src.coupons)[i];
      if k.row.product.Some? {
        OwnedByRef(Product, r.productId.value, r.userId);
      }
    }
    LoadKeeps(rule, before.coupons, rows, (id, r: CouponRow) => Leads(Product, r.product, r.tenant, after.products));
  }

  /** After a load every listed id is in the table. */
  lemma {:induction false} LoadHolds<R>(rule: Rule<R>, t: Table<R>, rows: seq<Keyed<R>>)
    requires Load(rule, t, rows).Some?
    ensures t.Keys <= Load(rule, t, rows).value.Keys
    ensures forall i :: 0 <= i < |rows| ==> rows[i].id in Load(rule, t, rows).value
  {
    if rows != [] {
      var n := |rows| - 1;
      LoadHolds(rule, t, rows[..n]);
      assert forall i :: 0 <= i < n ==> rows[..n][i] == rows[i];
    }
  }

  lemma LinkItems(before: Db, src: Legacy, float: ParseFloat, dates: Dates, after: Db)
    requires Linked(before)
    requires Load(OrderRule(after.tenants, dates), before.orders, HeaderRows(float, dates, SafeRows(src.orders)))
             == Some(after.orders)
    requires Load(ItemRule(), before.items, ItemRows(float, SafeRows(src.orders))) == Some(after.items)
    ensures forall id :: id in after.items ==> after.items[id].order in after.orders
  {
    hide Load, RowName, TenantName, Orders.RoundSen, OrderRule, Total, Expiry;
    var orders := SafeRows(src.orders);
    var headers, rows := HeaderRows(float, dates, orders), ItemRows(float, orders);
    LoadHolds(OrderRule(after.tenants, dates), before.orders, headers);
    forall k | k in rows
      ensures k.row.order in after.orders
    {
      var i :| 0 <= i < |rows| && rows[i] == k;
      assert headers[i].id == rows[i].row.order;
    }
    LoadKeeps(ItemRule(), before.items, rows, (id, r: ItemRow) => r.order in after.orders);
  }

  lemma {:induction false} PaymentOrders(float: ParseFloat, rows: seq<LegacyOrder>, k: Keyed<PaymentRow>)
    returns (j: nat)
    requires k in PaymentRows(float, rows)
    ensures j < |rows| && k.row.order == RowName(Order, rows[j].id, rows[j].userId)
    decreases |rows|
  {
    hide RowName;
    var front := rows[..|rows| - 1];
    if k in PaymentRows(float, front) {
      j := PaymentOrders(float, front, k);
    } else {
      j := |rows| - 1;
    }
  }

  lemma LinkPayments(before: Db, src: Legacy, float: ParseFloat, dates: Dates, after: Db)
    requires Linked(before)
    requires Load(OrderRule(after.tenants, dates), before.orders, HeaderRows(float, dates, SafeRows(src.orders)))
             == Some(after.orders)
    requires Load(PaymentRule(), before.payments, PaymentRows(float, SafeRows(src.orders))) == Some(after.payments)
    ensures forall id :: id in after.payments ==> after.payments[id].order in after.orders
  {
    hide Load, RowName, TenantName, Orders.RoundSen, OrderRule, Total, Expiry;
    var orders := SafeRows(src.orders);
    var headers, rows := HeaderRows(float, dates, orders), PaymentRows(float, orders);
    LoadHolds(OrderRule(after.tenants, dates), before.orders, headers);
    forall k | k in rows
      ensures k.row.order in after.orders
    {
      var j := PaymentOrders(float, orders, k);
      assert headers[j].id == k.row.order;
    }
    LoadKeeps(PaymentRule(), before.payments, rows, (id, r: PaymentRow) => r.order in after.orders);
  }

  lemma LinkedKept(before: Db, src: Legacy, float: ParseFloat, dates: Dates, after: Db)
    requires Linked(before) && Migrates(before, src, float, dates, after)
    ensures Linked(after)
  {
    hide Load, Owned, Leads, CategoryRule, ProductRule, OrderRule, ItemRule, PaymentRule, CouponRule;
    LinkCategories(before, src, after);
    LinkProducts(before, src, float, after);
    LinkCoupons(before, src, dates, after);
    LinkItems(before, src, float, dates, after);
    LinkPayments(before, src, float, dates, after);
  }

  datatype Attempt = Attempt(src: Legacy, dates: Dates)

  /** Any number of runs, each of whatever the legacy shop held at the time; a
      run that fails leaves the database as it was. */
  ghost predicate Runs(dbs: seq<Db>, attempts: seq<Attempt>, float: ParseFloat) {
    |dbs| == |attempts| + 1 && dbs[0] == EMPTY
    && forall i :: 0 <= i < |attempts| ==>
                     dbs[i + 1] == dbs[i] || Migrates(dbs[i], attempts[i].src, float, attempts[i].dates, dbs[i + 1])
  }

  lemma {:induction false} RunsLinked(dbs: seq<Db>, attempts: seq<Attempt>, float: ParseFloat, i: nat)
    requires Runs(dbs, attempts, float) && i < |dbs|
    ensures Linked(dbs[i])
  {
    hide Migrates;
    if i == 0 {
      hide Owned, Leads;
    } else {
      RunsLinked(dbs, attempts, float, i - 1);
      hide Linked;
      var a := attempts[i - 1];
      if dbs[i] != dbs[i - 1] {
        LinkedKept(dbs[i - 1], a.src, float, a.dates, dbs[i]);
      }
    }
  }

  /** After any number of runs, failed ones included, a product's category and a
      coupon's product exist and belong to the same tenant. */
  lemma ReferencesStayInTenant(dbs: seq<Db>, attempts: seq<Attempt>, float: ParseFloat, i: nat, p: Id, c: Id)
    requires Runs(dbs, attempts, float) && i < |dbs|
    ensures var db := dbs[i];
            p in db.products && db.products[p].category.Some? ==>
              var to := db.products[p].category.value;
              to in db.categories && db.categories[to].tenant == db.products[p].tenant
    ensures var db := dbs[i];
            c in db.coupons && db.coupons[c].product.Some? ==>
              var to := db.coupons[c].product.value;
              to in db.products && db.products[to].tenant == db.coupons[c].tenant
  {
    RunsLinked(dbs, attempts, float, i);
    hide Runs, RowName, TenantName;
    var db := dbs[i];
    if p in db.products && db.products[p].category.Some? {
      var to := db.products[p].category.value;
      OneOwner(Category, to, db.products[p].tenant, db.categories[to].tenant);
    }
    if c in db.coupons && db.coupons[c].product.Some? {
      var to := db.coupons[c].product.value;
      OneOwner(Product, to, db.coupons[c].tenant, db.products[to].tenant);
    }
  }

  lemma OneOwner(kind: Kind, id: Id, a: Id, b: Id)
    requires Owned(kind, id, a) && Owned(kind, id, b)
    ensures a == b
  {
    hide RowName, TenantName;
    var k, u :| id == RowName(kind, k, u) && a == TenantName(u);
    var l, v :| id == RowName(kind, l, v) && b == TenantName(v);
    NamesInjective(kind, k, u, kind, l, v);
  }

  // ---- the one item of an order ----

  /** Every order of a fresh target has exactly one item, so it does not matter
      which one the parity view takes first. */
  lemma OneItemEach(src: Legacy, float: ParseFloat, dates: Dates, db: Db, i: nat, item: Id)
    requires LegacyKeys(src) && Migrates(EMPTY, src, float, dates, db) && i < |SafeRows(src.orders)|
    ensures var r := SafeRows(src.orders)[i];
            var oid, iid := RowName(Order, r.id, r.userId), RowName(OrderItem, r.id, r.userId);
            && oid in db.orders && db.orders[oid] == TransformHeader(float, dates, r).row
            && iid in db.items && db.items[iid] == TransformItem(float, r).row
            && (item in db.items && db.items[item].order == oid ==> item == iid)
  {
    AllDistinct(src, float, dates);
    hide DistinctIds, LegacyKeys, Load, OrderRule, ItemRule, RowName, Orders.RoundSen, Total, Expiry, Clean;
    var orders := SafeRows(src.orders);
    var headers, rows := HeaderRows(float, dates, orders), ItemRows(float, orders);
    LoadFromEmpty(OrderRule(db.tenants, dates), headers);
    LoadFromEmpty(ItemRule(), rows);
    var r := orders[i];
    assert headers[i] == TransformHeader(float, dates, r) && rows[i] == TransformItem(float, r);
    if item in db.items && db.items[item].order == RowName(Order, r.id, r.userId) {
      var j :| 0 <= j < |rows| && rows[j].id == item;
      assert rows[j] == TransformItem(float, orders[j]);
      NamesInjective(Order, orders[j].id, orders[j].userId, Order, r.id, r.userId);
    }
  }

  /** The parity view over a freshly migrated order, whichever item it takes, is
      the cleaned legacy row. */
  lemma ParityHolds(src: Legacy, float: ParseFloat, dates: Dates, db: Db, i: nat, item: Id, created: string)
    requires LegacyKeys(src) && Migrates(EMPTY, src, float, dates, db) && i < |SafeRows(src.orders)|
    requires var r := SafeRows(src.orders)[i];
             item in db.items && db.items[item].order == RowName(Order, r.id, r.userId)
    ensures var r := SafeRows(src.orders)[i];
            var oid := RowName(Order, r.id, r.userId);
            oid in db.orders
            && FlatView(r.id, r.userId, db.orders[oid], db.items[item], created, "")
               == CleanedRow(float, dates, r, created)
  {
    hide Migrates, LegacyKeys, RowName, TransformHeader, TransformItem, FlatView, CleanedRow;
    OneItemEach(src, float, dates, db, i, item);
    ViewIsCleanedRow(float, dates, SafeRows(src.orders)[i], created);
  }

  // ---- a shop that migrates ----

  function Sole<L>(row: L): Source<L> {
    Source([row], true)
  }

  /** One seller with a category, a product in it, an order, a customer and a
      coupon for the product. */
  function SmallShop(): Legacy {
    Legacy(
      Sole(LegacyUser(1, Some("ali"), None, None, None, None, None, None)),
      Sole(LegacyCategory(2, 1, Some("kuih"), None, None)),
      Sole(LegacyProduct(3, 1, Some(2), Some("K1"), Some("Kuih"), None, Num(2.0), None)),
      Sole(LegacyOrder(4, 1, Some("K1"), Some(3), Num(2.0), Null, None, None, None, None,
                       None, None, None, None, None, None, None, None, Some("proof.jpg"))),
      Sole(LegacyCustomer(5, 1, None, None, None, None, None, None, None, None, None, None, None)),
      Sole(LegacyCoupon(6, 1, Some(3), None, None, None)))
  }

  function AnyDates(): Dates {
    Dates(s => Some(s), n => "soon", s => true, s => true)
  }

  function NoFloats(): ParseFloat {
    s => None
  }

  lemma LoadOne<R>(rule: Rule<R>, rows: seq<Keyed<R>>, k: Keyed<R>)
    requires rows == [k] && rule.checks(k.row) && rule.refs(k.row)
    ensures Load(rule, map[], rows) == Some(map[k.id := k.row])
  {
    assert rows[..0] == [];
    assert Load(rule, map[], rows[..0]) == Some(map[]);
  }

  function SmallDb(): Db {
    var src, float, dates := SmallShop(), NoFloats(), AnyDates();
    var u, c, p := TransformUser(src.users.rows[0]), TransformCategory(src.categories.rows[0]),
                   TransformProduct(float, src.products.rows[0]);
    var o := src.orders.rows[0];
    var h, i, y := TransformHeader(float, dates, o), TransformItem(float, o), TransformPayment(float, o);
    var m, v := TransformCustomer(src.customers.rows[0]), TransformCoupon(src.coupons.rows[0]);
    Db(map[u.id := u.row], map[c.id := c.row], map[p.id := p.row], map[h.id := h.row], map[i.id := i.row],
       if y.Some? then map[y.value.id := y.value.row] else map[], map[m.id := m.row], map[v.id := v.row])
  }

  lemma SmallAmounts()
    ensures Orders.RoundSen(2.0) == 200 && Orders.RoundSen(Amount(3, 2.0)) == 600
  {
    Orders.RoundWhole(2.0, 200);
    assert Amount(3, 2.0) == 6.0;
    Orders.RoundWhole(6.0, 600);
  }

  lemma SmallSeller()
    ensures var src, db := SmallShop(), SmallDb();
            && Load(TenantRule(), map[], UserRows(src)) == Some(db.tenants) && TenantName(1) in db.tenants
  {
    hide RowName, TenantName, Load, FullName, LowerAll, Strip;
    hide TransformCategory, TransformProduct, TransformHeader, TransformItem, TransformPayment, TransformCustomer,
         TransformCoupon;
    LoadOne(TenantRule(), UserRows(SmallShop()), TransformUser(SmallShop().users.rows[0]));
  }

  lemma SmallCatalogue()
    requires TenantName(1) in SmallDb().tenants
    ensures var src, float, db := SmallShop(), NoFloats(), SmallDb();
            && Load(CategoryRule(db.tenants), map[], CategoryRows(src)) == Some(db.categories)
            && Load(ProductRule(db.tenants, db.categories), map[], ProductRows(float, src)) == Some(db.products)
            && |db.products| == 1
  {
    SmallAmounts();
    hide RowName, TenantName, Load, FullName, LowerAll, Strip, Orders.RoundSen, Amount;
    hide TransformUser, TransformHeader, TransformItem, TransformPayment, TransformCustomer, TransformCoupon;
    var src, float, db := SmallShop(), NoFloats(), SmallDb();
    LoadOne(CategoryRule(db.tenants), CategoryRows(src), TransformCategory(src.categories.rows[0]));
    LoadOne(ProductRule(db.tenants, db.categories), ProductRows(float, src),
            TransformProduct(float, src.products.rows[0]));
  }

  lemma SmallClients()
    requires TenantName(1) in SmallDb().tenants
    ensures var src, dates, db := SmallShop(), AnyDates(), SmallDb();
            && Load(CustomerRule(db.tenants, dates), map[], CustomerRows(src)) == Some(db.customers)
            && Load(CouponRule(db.tenants, db.products, dates), map[], CouponRows(src)) == Some(db.coupons)
  {
    hide RowName, TenantName, Load, FullName, LowerAll, Strip, Orders.RoundSen, Amount;
    hide TransformHeader, TransformItem, TransformPayment, TransformUser, TransformCategory;
    var src, dates, db := SmallShop(), AnyDates(), SmallDb();
    LoadOne(CustomerRule(db.tenants, dates), CustomerRows(src), TransformCustomer(src.customers.rows[0]));
    LoadOne(CouponRule(db.tenants, db.products, dates), CouponRows(src), TransformCoupon(src.coupons.rows[0]));
  }

  lemma SmallKeys()
    ensures LegacyKeys(SmallShop()) && |SmallDb().orders| == 1
  {
    hide RowName, TenantName, TransformUser, TransformCategory, TransformProduct, TransformHeader, TransformItem;
    hide TransformPayment, TransformCustomer, TransformCoupon;
  }

  /** The requirements of the lemmas about a fresh target are met by this shop. */
  lemma SmallShopMigrates()
    ensures LegacyKeys(SmallShop()) && Migrates(EMPTY, SmallShop(), NoFloats(), AnyDates(), SmallDb())
    ensures |SmallDb().orders| == 1 && |SmallDb().payments| == 1 && |SmallDb().products| == 1
  {
    SmallKeys();
    SmallSeller();
    SmallCatalogue();
    hide SmallDb, SmallShop, Load, LegacyKeys, TenantName;
    SmallClients();
    SmallOrder(SmallDb().tenants);
  }

  lemma SmallOrder(tenants: Table<TenantRow>)
    requires TenantName(1) in tenants
    ensures var src, float, dates := SmallShop(), NoFloats(), AnyDates();
            var rows := SafeRows(src.orders);
            && Load(OrderRule(tenants, dates), map[], HeaderRows(float, dates, rows)) == Some(SmallDb().orders)
            && Load(ItemRule(), map[], ItemRows(float, rows)) == Some(SmallDb().items)
            && Load(PaymentRule(), map[], PaymentRows(float, rows)) == Some(SmallDb().payments)
            && |SmallDb().payments| == 1
  {
    SmallAmounts();
    ProofStays();
    hide RowName, TenantName, Load, Strip, Orders.RoundSen, Amount;
    var src, float, dates := SmallShop(), NoFloats(), AnyDates();
    var rows := SafeRows(src.orders);
    var o := rows[0];
    assert rows[..0] == [] && PaymentRows(float, []) == [];
    LoadOne(OrderRule(tenants, dates), HeaderRows(float, dates, rows), TransformHeader(float, dates, o));
    LoadOne(ItemRule(), ItemRows(float, rows), TransformItem(float, o));
    LoadOne(PaymentRule(), PaymentRows(float, rows), TransformPayment(float, o).value);
  }

  lemma ProofStays()
    ensures Strip("proof.jpg") == "proof.jpg"
  {
  }
}
