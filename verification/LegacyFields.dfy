/** What a legacy row becomes in the target: field by field, for every table that
    migration/mudahurus_migrate loads, whatever the target held before. */
module LegacyFields {
  import opened Text
  import opened LegacyTransforms
  import opened LegacyMigration
  import Orders

  // ---- texts and prices ----

  /** Cleaning a column strips its text; NULL becomes the empty text. */
  lemma CleanIs(v: Field) returns (a: string, b: string)
    ensures v.None? ==> Clean(v) == ""
    ensures v.Some? ==> v.value == a + (Clean(v) + b) && AllSpace(a) && AllSpace(b)
    ensures Clean(v) != "" ==> !IsSpace(Clean(v)[0]) && !IsSpace(Clean(v)[|Clean(v)| - 1])
  {
    a, b := [], [];
    if v.Some? { a, b := StripIs(v.value); }
  }

  lemma LowerIs(s: string)
    ensures |LowerAll(s)| == |s|
    ensures forall i :: 0 <= i < |s| ==>
              LowerAll(s)[i] == if 'A' <= s[i] <= 'Z' then ((s[i] as int) + 32) as char else s[i]
  {
  }

  /** Commas go from a price, and nothing else. */
  lemma {:induction false} CommasGo(a: string, b: string)
    ensures ',' !in a ==> WithoutCommas(a) == a
    ensures WithoutCommas(a + ([','] + b)) == WithoutCommas(a) + WithoutCommas(b)
  {
    var s := a + ([','] + b);
    if a == [] {
      assert s[1..] == b;
    } else {
      assert s[1..] == a[1..] + ([','] + b);
      CommasGo(a[1..], b);
      assert a == [a[0]] + a[1..];
    }
  }

  /** A price that is missing, empty or no number counts as zero. */
  lemma PriceIs(float: ParseFloat, v: Price)
    ensures v.Null? || v == Str("") ==> CleanPrice(float, v) == 0.0
    ensures v.Num? ==> CleanPrice(float, v) == v.x
    ensures v.Str? && v.s != "" ==>
              match float(WithoutCommas(v.s)) case None => CleanPrice(float, v) == 0.0
                                              case Some(x) => CleanPrice(float, v) == x
  {
  }

  lemma {:induction false} StripNothing(s: string)
    requires s != [] && !IsSpace(s[0]) && !IsSpace(s[|s| - 1])
    ensures Strip(s) == s && Strip([' '] + s) == s && Strip(s + [' ']) == s
  {
    assert ([' '] + s)[1..] == s;
    assert (s + [' '])[..|s|] == s && (s + [' '])[0] == s[0];
  }

  /** First and last name, with one blank between them when there are both. */
  lemma FullNameIs(first: Field, last: Field)
    ensures var a, b := Clean(first), Clean(last);
            FullName(first, last) == if a == "" then b else if b == "" then a else a + " " + b
  {
    var a, b := Clean(first), Clean(last);
    Ends(first);
    Ends(last);
    if a != "" { StripNothing(a); }
    if b != "" { StripNothing(b); }
    hide Clean;
    if a != "" && b != "" {
      assert (a + " " + b)[0] == a[0] && (a + " " + b)[|a| + |b|] == b[|b| - 1];
      StripNothing(a + " " + b);
    }
    NameJoined(first, last);
    BlankStripped();
    hide Strip, FullName;
    assert a + " " + "" == a + [' '] && "" + " " + b == [' '] + b;
  }

  lemma BlankStripped()
    ensures Strip("") == "" && Strip(" ") == "" && "" + " " + "" == " "
  {
    assert " "[1..] == "";
  }

  lemma Ends(v: Field)
    ensures Clean(v) != "" ==> v.Some? && v.value != "" && !IsSpace(Clean(v)[0]) && !IsSpace(Clean(v)[|Clean(v)| - 1])
  {
    var a, b := CleanIs(v);
  }

  lemma NameJoined(first: Field, last: Field)
    ensures var a, b := Clean(first), Clean(last);
            FullName(first, last) ==
            if Truthy(first).None? then (if Truthy(last).None? then Strip("") else Strip(b))
            else if Truthy(last).None? then Strip(a) else Strip(a + " " + b)
  {
    hide Clean, Strip;
    var a, b := Clean(first), Clean(last);
    assert [a] + [b] == [a, b] && [a, b][1..] == [b] && [a] + [] == [a] && [] + [b] == [b];
    assert Join([a, b]) == a + [' '] + b && Join([a]) == a && Join([b]) == b && Join([]) == "";
  }

  // ---- loading over any table ----

  predicate HasId<R>(rows: seq<Keyed<R>>, id: Id) {
    exists i :: 0 <= i < |rows| && rows[i].id == id
  }

  /** Each row is in the table afterwards: as it is when its id is new, merged by
      the conflict clause when it was there. All else stays, and nothing else comes. */
  ghost predicate LoadedAs<R(!new)>(rule: Rule<R>, t: Table<R>, u: Table<R>, rows: seq<Keyed<R>>) {
    && (forall i :: 0 <= i < |rows| ==>
          rows[i].id in u
          && u[rows[i].id] == if rows[i].id in t then rule.merge(t[rows[i].id], rows[i].row) else rows[i].row)
    && (forall id :: id in t && !HasId(rows, id) ==> id in u && u[id] == t[id])
    && (forall id :: id in u ==> id in t || HasId(rows, id))
  }

  lemma LoadedNext<R(!new)>(rule: Rule<R>, t: Table<R>, u: Table<R>, front: seq<Keyed<R>>, k: Keyed<R>)
    requires LoadedAs(rule, t, u, front) && !HasId(front, k.id)
    ensures LoadedAs(rule, t, u[k.id := if k.id in u then rule.merge(u[k.id], k.row) else k.row], front + [k])
  {
    var rows := front + [k];
    assert rows[|front|] == k;
    assert forall i :: 0 <= i < |front| ==> rows[i] == front[i] && front[i].id != k.id;
    forall id
      ensures HasId(rows, id) <==> HasId(front, id) || id == k.id
    {
      if HasId(front, id) {
        var i :| 0 <= i < |front| && front[i].id == id;
        assert rows[i].id == id;
      }
      if HasId(rows, id) {
        var i :| 0 <= i < |rows| && rows[i].id == id;
        if i < |front| { assert front[i].id == id; }
      }
    }
    hide HasId;
  }

  lemma {:induction false} LoadedIs<R(!new)>(rule: Rule<R>, t: Table<R>, rows: seq<Keyed<R>>)
    requires DistinctIds(rows) && Load(rule, t, rows).Some?
    ensures LoadedAs(rule, t, Load(rule, t, rows).value, rows)
  {
    if rows != [] {
      var n := |rows| - 1;
      var front := rows[..n];
      LoadedIs(rule, t, front);
      var u := Load(rule, t, front).value;
      InsertedIs(rule, u, rows[n]);
      assert Load(rule, t, rows) == Insert(rule, u, rows[n]);
      assert !HasId(front, rows[n].id) by {
        assert forall i :: 0 <= i < n ==> front[i].id == rows[i].id != rows[n].id;
      }
      assert front + [rows[n]] == rows;
      hide Insert, Load, LoadedAs, HasId;
      LoadedNext(rule, t, u, front, rows[n]);
    }
  }

  lemma InsertedIs<R>(rule: Rule<R>, u: Table<R>, k: Keyed<R>)
    requires Insert(rule, u, k).Some?
    ensures Insert(rule, u, k).value == u[k.id := if k.id in u then rule.merge(u[k.id], k.row) else k.row]
  {
    if k.id in u { assert u[k.id := u[k.id]] == u; }
  }

  /** A text, or another one when it is empty. */
  predicate Default(s: string, first: string, second: string) {
    if first != "" then s == first else s == second
  }

  /** No reference for NULL and 0, otherwise the row of the same user. */
  predicate RefersTo(ref: Option<Id>, kind: Kind, id: Option<nat>, user: nat) {
    match id
    case None => ref == None
    case Some(n) => ref == if n == 0 then None else Some(RowName(kind, n, user))
  }

  /** NULL for NULL and for the empty text. */
  predicate Kept(f: Field, v: Field) {
    f == if v == Some("") then None else v
  }

  // ---- users ----

  /** A user becomes a tenant; for one that is there already only the login and the
      email follow. */
  lemma MigratedUser(before: Db, src: Legacy, float: ParseFloat, dates: Dates, db: Db, i: nat)
    requires LegacyKeys(src) && Migrates(before, src, float, dates, db) && i < |SafeRows(src.users)|
    ensures TenantName(SafeRows(src.users)[i].id) in db.tenants
    ensures var r := SafeRows(src.users)[i];
            var id := TenantName(r.id);
            var t := db.tenants[id];
            && t.username == LowerAll(Clean(r.username)) && t.email == LowerAll(Clean(r.email))
            && if id in before.tenants then t == before.tenants[id].(username := t.username, email := t.email)
               else
                 && t.legacyUserId == r.id && Default(t.passwordHash, Clean(r.password), "!legacy")
                 && t.storeName == Clean(r.company) && t.phone == Clean(r.phone)
                 && var a, b := Clean(r.firstName), Clean(r.lastName);
                    t.fullName == if a == "" then b else if b == "" then a else a + " " + b
  {
    var r := SafeRows(src.users)[i];
    UsersLoaded(before, src, float, dates, db, i);
    hide Migrates, LegacyKeys, Clean, LowerAll, FullName, TenantName;
    FullNameIs(r.firstName, r.lastName);
  }

  lemma UsersLoaded(before: Db, src: Legacy, float: ParseFloat, dates: Dates, db: Db, i: nat)
    requires LegacyKeys(src) && Migrates(before, src, float, dates, db) && i < |SafeRows(src.users)|
    ensures var k := TransformUser(SafeRows(src.users)[i]);
            k.id in db.tenants
            && db.tenants[k.id] ==
               if k.id in before.tenants then TenantRule().merge(before.tenants[k.id], k.row) else k.row
  {
    AllDistinct(src, float, dates);
    hide DistinctIds, LegacyKeys, Load, TransformUser, TenantRule;
    LoadedIs(TenantRule(), before.tenants, UserRows(src));
    assert UserRows(src)[i] == TransformUser(SafeRows(src.users)[i]);
  }

  // ---- categories ----

  /** A category keeps its own name, or the other name column's when that is empty;
      for one that is there already only the name follows. */
  lemma MigratedCategory(before: Db, src: Legacy, float: ParseFloat, dates: Dates, db: Db, i: nat)
    requires LegacyKeys(src) && Migrates(before, src, float, dates, db) && i < |SafeRows(src.categories)|
    ensures var r := SafeRows(src.categories)[i];
            var id := RowName(Category, r.id, r.userId);
            && id in db.categories
            && var c := db.categories[id];
               && Default(c.name, Clean(r.category), Clean(r.name))
               && if id in before.categories then c == before.categories[id].(name := c.name)
                  else c.tenant == TenantName(r.userId) && c.description == Clean(r.description)
  {
    AllDistinct(src, float, dates);
    hide DistinctIds, LegacyKeys, Load, RowName, TenantName, Clean;
    LoadedIs(CategoryRule(db.tenants), before.categories, CategoryRows(src));
    assert CategoryRows(src)[i] == TransformCategory(SafeRows(src.categories)[i]);
  }

  // ---- products ----

  /** A product keeps name, description and SKU apart, its price to the sen, and is
      active exactly when its status is empty or says so; for one that is there
      already only name and price follow. */
  lemma MigratedProduct(before: Db, src: Legacy, float: ParseFloat, dates: Dates, db: Db, i: nat)
    requires LegacyKeys(src) && Migrates(before, src, float, dates, db) && i < |SafeRows(src.products)|
    ensures RowName(Product, SafeRows(src.products)[i].id, SafeRows(src.products)[i].userId) in db.products
    ensures var r := SafeRows(src.products)[i];
            var id := RowName(Product, r.id, r.userId);
            var p := db.products[id];
            && p.productName == Clean(r.productName)
            && Orders.NearestSen(p.unitPrice, CleanPrice(float, r.unitPrice))
            && if id in before.products
               then p == before.products[id].(productName := p.productName, unitPrice := p.unitPrice)
               else
                 && p.tenant == TenantName(r.userId) && RefersTo(p.category, Category, r.categoryId, r.userId)
                 && p.sku == Clean(r.sku) && p.description == Clean(r.description)
                 && (p.active <==> Clean(r.status) == "" || Clean(r.status) == "active")
  {
    var r := SafeRows(src.products)[i];
    Orders.RoundSenError(CleanPrice(float, r.unitPrice));
    AllDistinct(src, float, dates);
    hide DistinctIds, LegacyKeys, Load, RowName, TenantName, Clean, CleanPrice, Orders.RoundSen;
    LoadedIs(ProductRule(db.tenants, db.categories), before.products, ProductRows(float, src));
    assert ProductRows(float, src)[i] == TransformProduct(float, r);
  }

  // ---- orders ----

  /** A new order: its texts, its own total or else quantity times price, and its
      own expiry or else three days after it was placed or reached. */
  lemma MigratedOrder(before: Db, src: Legacy, float: ParseFloat, dates: Dates, db: Db, i: nat)
    requires LegacyKeys(src) && Migrates(before, src, float, dates, db) && i < |SafeRows(src.orders)|
    requires RowName(Order, SafeRows(src.orders)[i].id, SafeRows(src.orders)[i].userId) !in before.orders
    ensures RowName(Order, SafeRows(src.orders)[i].id, SafeRows(src.orders)[i].userId) in db.orders
    ensures var r := SafeRows(src.orders)[i]; OrderIs(float, dates, r, db.orders[RowName(Order, r.id, r.userId)])
  {
    var r := SafeRows(src.orders)[i];
    HeaderFields(float, dates, r);
    AllDistinct(src, float, dates);
    hide DistinctIds, LegacyKeys, Load, RowName, TransformHeader, OrderRule, OrderIs, Migrates;
    HeaderLoaded(before, src, float, dates, db, i);
  }

  lemma HeaderLoaded(before: Db, src: Legacy, float: ParseFloat, dates: Dates, db: Db, i: nat)
    requires LegacyKeys(src) && Migrates(before, src, float, dates, db) && i < |SafeRows(src.orders)|
    requires TransformHeader(float, dates, SafeRows(src.orders)[i]).id !in before.orders
    ensures var k := TransformHeader(float, dates, SafeRows(src.orders)[i]);
            k.id in db.orders && db.orders[k.id] == k.row
  {
    AllDistinct(src, float, dates);
    hide DistinctIds, LegacyKeys, Load, TransformHeader, OrderRule;
    LoadedIs(OrderRule(db.tenants, dates), before.orders, HeaderRows(float, dates, SafeRows(src.orders)));
    assert HeaderRows(float, dates, SafeRows(src.orders))[i] == TransformHeader(float, dates, SafeRows(src.orders)[i]);
  }

  predicate OrderIs(float: ParseFloat, dates: Dates, r: LegacyOrder, o: OrderRow) {
    var given, quantity := CleanPrice(float, r.totalPrice), QuantityOf(r.quantity);
    && o.tenant == TenantName(r.userId) && Default(o.status, Clean(r.status), "pending")
    && o.fullName == Clean(r.fullName) && o.email == Clean(r.email) && o.contactNo == Clean(r.contactNo)
    && o.shipping.mailingAddr == Clean(r.mailingAddr) && o.shipping.mailingAddr2 == Clean(r.mailingAddr2)
    && o.shipping.city == Clean(r.city) && o.shipping.postcode == Clean(r.postcode)
    && o.shipping.state == Clean(r.state) && o.additionalNotes == Clean(r.additionalNotes)
    && Orders.NearestSen(o.totalPrice, if given != 0.0 then given
                                       else quantity as real * CleanPrice(float, r.unitPrice))
    && ExpiresAs(dates, r, o.expires)
  }

  /** A missing quantity, and 0, count as one. */
  function QuantityOf(q: Option<int>): int {
    match q case None => 1 case Some(n) => if n == 0 then 1 else n
  }

  /** The row's own expiry; without one, three days after the date it was placed on
      when that can be read, and otherwise three days from now. */
  predicate ExpiresAs(dates: Dates, r: LegacyOrder, expires: string) {
    match (r.expiredDate, r.insertDate)
    case (Some(own), placed) =>
      if own != "" then expires == own else ExpiresFrom(dates, r, placed, expires)
    case (None, placed) => ExpiresFrom(dates, r, placed, expires)
  }

  predicate ExpiresFrom(dates: Dates, r: LegacyOrder, placed: Field, expires: string) {
    if placed.Some? && placed.value != "" && dates.plusThree(placed.value).Some?
    then dates.plusThree(placed.value) == Some(expires) else expires == dates.clock(r.id)
  }

  lemma HeaderFields(float: ParseFloat, dates: Dates, r: LegacyOrder)
    ensures var k := TransformHeader(float, dates, r);
            k.id == RowName(Order, r.id, r.userId) && OrderIs(float, dates, r, k.row)
  {
    hide RowName, TenantName, Clean, CleanPrice;
    Orders.RoundSenError(Total(float, r));
    hide Orders.RoundSen;
  }

  // ---- items ----

  /** A new order's item: its SKU, quantity, price and line total. */
  lemma MigratedItem(before: Db, src: Legacy, float: ParseFloat, dates: Dates, db: Db, i: nat)
    requires LegacyKeys(src) && Migrates(before, src, float, dates, db) && i < |SafeRows(src.orders)|
    requires RowName(OrderItem, SafeRows(src.orders)[i].id, SafeRows(src.orders)[i].userId) !in before.items
    ensures RowName(OrderItem, SafeRows(src.orders)[i].id, SafeRows(src.orders)[i].userId) in db.items
    ensures var r := SafeRows(src.orders)[i]; ItemIs(float, r, db.items[RowName(OrderItem, r.id, r.userId)])
  {
    var r := SafeRows(src.orders)[i];
    ItemFields(float, r);
    AllDistinct(src, float, dates);
    hide DistinctIds, LegacyKeys, Load, RowName, TransformItem, ItemRule, ItemIs;
    LoadedIs(ItemRule(), before.items, ItemRows(float, SafeRows(src.orders)));
    assert ItemRows(float, SafeRows(src.orders))[i] == TransformItem(float, r);
  }

  predicate ItemIs(float: ParseFloat, r: LegacyOrder, it: ItemRow) {
    var price, quantity := CleanPrice(float, r.unitPrice), QuantityOf(r.quantity);
    && it.order == RowName(Order, r.id, r.userId) && it.sku == Clean(r.sku) && it.quantity == quantity
    && Orders.NearestSen(it.unitPrice, price) && Orders.NearestSen(it.lineTotal, quantity as real * price)
  }

  lemma ItemFields(float: ParseFloat, r: LegacyOrder)
    ensures var k := TransformItem(float, r);
            k.id == RowName(OrderItem, r.id, r.userId) && ItemIs(float, r, k.row)
  {
    hide RowName, Clean, CleanPrice;
    Orders.RoundSenError(CleanPrice(float, r.unitPrice));
    Orders.RoundSenError(LineTotal(float, r));
    hide Orders.RoundSen;
  }

  // ---- payments ----

  lemma {:induction false} PaymentListed(float: ParseFloat, rows: seq<LegacyOrder>, i: nat)
    requires i < |rows| && TransformPayment(float, rows[i]).Some?
    ensures TransformPayment(float, rows[i]).value in PaymentRows(float, rows)
  {
    hide TransformPayment;
    var n := |rows| - 1;
    if i < n { PaymentListed(float, rows[..n], i); }
  }

  /** A new payment exists exactly when the order came with a proof. It is for the
      order's total, and verified exactly when the order was accepted or shipped. */
  lemma MigratedPayment(before: Db, src: Legacy, float: ParseFloat, dates: Dates, db: Db, i: nat)
    requires LegacyKeys(src) && Migrates(before, src, float, dates, db) && i < |SafeRows(src.orders)|
    requires var r := SafeRows(src.orders)[i];
             RowName(Order, r.id, r.userId) !in before.orders && RowName(Payment, r.id, r.userId) !in before.payments
    ensures var r := SafeRows(src.orders)[i];
            var id, order := RowName(Payment, r.id, r.userId), RowName(Order, r.id, r.userId);
            && order in db.orders
            && (id in db.payments <==> Clean(r.paymentImageProof) != "")
            && (id in db.payments ==>
                  && db.payments[id].order == order && db.payments[id].proofKey == ""
                  && db.payments[id].amount == db.orders[order].totalPrice
                  && db.payments[id].status == if Clean(r.status) == "payment_accepted" || Clean(r.status) == "shipped"
                                               then "verified" else "submitted")
  {
    var r := SafeRows(src.orders)[i];
    PaymentFields(float, dates, r);
    hide LegacyKeys, Migrates, RowName, TransformHeader, TransformPayment, Clean;
    HeaderLoaded(before, src, float, dates, db, i);
    PaymentLoaded(before, src, float, dates, db, i);
  }

  lemma PaymentLoaded(before: Db, src: Legacy, float: ParseFloat, dates: Dates, db: Db, i: nat)
    requires LegacyKeys(src) && Migrates(before, src, float, dates, db) && i < |SafeRows(src.orders)|
    requires RowName(Payment, SafeRows(src.orders)[i].id, SafeRows(src.orders)[i].userId) !in before.payments
    ensures var r := SafeRows(src.orders)[i];
            var id, p := RowName(Payment, r.id, r.userId), TransformPayment(float, r);
            && (id in db.payments <==> p.Some?)
            && (p.Some? ==> p.value.id == id && db.payments[id] == p.value.row)
  {
    var rows, r := SafeRows(src.orders), SafeRows(src.orders)[i];
    var id := RowName(Payment, r.id, r.userId);
    PaymentFields(float, dates, r);
    AllDistinct(src, float, dates);
    hide DistinctIds, LegacyKeys, Load, RowName, TransformHeader, TransformPayment, OrderRule, PaymentRule, Clean;
    LoadedIs(PaymentRule(), before.payments, PaymentRows(float, rows));
    hide Migrates;
    if TransformPayment(float, r).Some? {
      PaymentListed(float, rows, i);
      var j :| 0 <= j < |PaymentRows(float, rows)| && PaymentRows(float, rows)[j] == TransformPayment(float, r).value;
    }
    if id in db.payments {
      assert HasId(PaymentRows(float, rows), id);
      var j :| 0 <= j < |PaymentRows(float, rows)| && PaymentRows(float, rows)[j].id == id;
      ProofBehind(float, src, i, j);
    }
  }

  lemma PaymentFields(float: ParseFloat, dates: Dates, r: LegacyOrder)
    ensures var p, o := TransformPayment(float, r), TransformHeader(float, dates, r);
            && o.id == RowName(Order, r.id, r.userId)
            && (p.Some? <==> Clean(r.paymentImageProof) != "")
            && (p.Some? ==>
                  && p.value.id == RowName(Payment, r.id, r.userId)
                  && p.value.row.order == o.id && p.value.row.proofKey == "" && p.value.row.amount == o.row.totalPrice
                  && p.value.row.status == if Clean(r.status) == "payment_accepted" || Clean(r.status) == "shipped"
                                           then "verified" else "submitted")
  {
    hide RowName, Clean, Total, Expiry, Orders.RoundSen;
  }

  lemma {:induction false} PaymentComesFrom(float: ParseFloat, rows: seq<LegacyOrder>, j: nat) returns (i: nat)
    requires j < |PaymentRows(float, rows)|
    ensures i < |rows| && TransformPayment(float, rows[i]).Some?
            && PaymentRows(float, rows)[j] == TransformPayment(float, rows[i]).value
    decreases |rows|
  {
    hide TransformPayment;
    var front := rows[..|rows| - 1];
    if j < |PaymentRows(float, front)| {
      i := PaymentComesFrom(float, front, j);
    } else {
      i := |rows| - 1;
    }
  }

  /** A payment row under the name of order i comes from order i. */
  lemma ProofBehind(float: ParseFloat, src: Legacy, i: nat, j: nat)
    requires LegacyKeys(src) && i < |SafeRows(src.orders)| && j < |PaymentRows(float, SafeRows(src.orders))|
    requires PaymentRows(float, SafeRows(src.orders))[j].id ==
             RowName(Payment, SafeRows(src.orders)[i].id, SafeRows(src.orders)[i].userId)
    ensures TransformPayment(float, SafeRows(src.orders)[i]).Some?
  {
    var rows := SafeRows(src.orders);
    var k := PaymentComesFrom(float, rows, j);
    assert PaymentRows(float, rows)[j].id == RowName(Payment, rows[k].id, rows[k].userId);
    hide TransformPayment, RowName, PaymentRows;
    NamesInjective(Payment, rows[k].id, rows[k].userId, Payment, rows[i].id, rows[i].userId);
    DistinctSafe(src.orders, (r: LegacyOrder) => r.id);
    OneOfId(rows, i, k);
  }

  lemma OneOfId(rows: seq<LegacyOrder>, i: nat, k: nat)
    requires DistinctOn(rows, (r: LegacyOrder) => r.id) && i < |rows| && k < |rows| && rows[i].id == rows[k].id
    ensures i == k
  {
  }

  // ---- customers and coupons ----

  /** A new customer, regular unless the row says otherwise. */
  lemma MigratedCustomer(before: Db, src: Legacy, float: ParseFloat, dates: Dates, db: Db, i: nat)
    requires LegacyKeys(src) && Migrates(before, src, float, dates, db) && i < |SafeRows(src.customers)|
    requires RowName(Customer, SafeRows(src.customers)[i].id, SafeRows(src.customers)[i].userId) !in before.customers
    ensures RowName(Customer, SafeRows(src.customers)[i].id, SafeRows(src.customers)[i].userId) in db.customers
    ensures var r := SafeRows(src.customers)[i];
            var c := db.customers[RowName(Customer, r.id, r.userId)];
            && c.tenant == TenantName(r.userId) && c.fullName == Clean(r.fullName) && c.icNo == Clean(r.icNo)
            && Kept(c.dob, r.dob) && c.email == Clean(r.email) && c.contactNo == Clean(r.contactNo)
            && c.mailingAddr == Clean(r.mailingAddr) && c.city == Clean(r.city) && c.postcode == Clean(r.postcode)
            && c.state == Clean(r.state) && c.loyaltyCode == Clean(r.loyaltyCode)
            && Default(c.kind, Clean(r.kind), "regular")
  {
    AllDistinct(src, float, dates);
    hide DistinctIds, LegacyKeys, Load, RowName, TenantName, Clean;
    LoadedIs(CustomerRule(db.tenants, dates), before.customers, CustomerRows(src));
    assert CustomerRows(src)[i] == TransformCustomer(SafeRows(src.customers)[i]);
  }

  /** A new coupon, for a product when it names one. */
  lemma MigratedCoupon(before: Db, src: Legacy, float: ParseFloat, dates: Dates, db: Db, i: nat)
    requires LegacyKeys(src) && Migrates(before, src, float, dates, db) && i < |SafeRows(src.coupons)|
    requires RowName(Coupon, SafeRows(src.coupons)[i].id, SafeRows(src.coupons)[i].userId) !in before.coupons
    ensures RowName(Coupon, SafeRows(src.coupons)[i].id, SafeRows(src.coupons)[i].userId) in db.coupons
    ensures var r := SafeRows(src.coupons)[i];
            var c := db.coupons[RowName(Coupon, r.id, r.userId)];
            && c.tenant == TenantName(r.userId) && RefersTo(c.product, Product, r.productId, r.userId)
            && c.campaign == Clean(r.campaign) && c.description == Clean(r.description)
            && Kept(c.expires, r.expiredDate)
  {
    AllDistinct(src, float, dates);
    hide DistinctIds, LegacyKeys, Load, RowName, TenantName, Clean;
    LoadedIs(CouponRule(db.tenants, db.products, dates), before.coupons, CouponRows(src));
    assert CouponRows(src)[i] == TransformCoupon(SafeRows(src.coupons)[i]);
  }

  // ---- rows that were there, and rows that were not read ----

  /** Orders with their items and payments, customers and coupons that were there
      stay as they were, whatever the run brings. */
  lemma OldRowsStay(before: Db, src: Legacy, float: ParseFloat, dates: Dates, db: Db, id: Id)
    requires LegacyKeys(src) && Migrates(before, src, float, dates, db)
    ensures id in before.orders ==> id in db.orders && db.orders[id] == before.orders[id]
    ensures id in before.items ==> id in db.items && db.items[id] == before.items[id]
    ensures id in before.payments ==> id in db.payments && db.payments[id] == before.payments[id]
    ensures id in before.customers ==> id in db.customers && db.customers[id] == before.customers[id]
    ensures id in before.coupons ==> id in db.coupons && db.coupons[id] == before.coupons[id]
  {
    AllDistinct(src, float, dates);
    hide DistinctIds, LegacyKeys, Load;
    var orders := SafeRows(src.orders);
    NeverMerged(OrderRule(db.tenants, dates), before.orders, HeaderRows(float, dates, orders), id);
    NeverMerged(ItemRule(), before.items, ItemRows(float, orders), id);
    NeverMerged(PaymentRule(), before.payments, PaymentRows(float, orders), id);
    NeverMerged(CustomerRule(db.tenants, dates), before.customers, CustomerRows(src), id);
    NeverMerged(CouponRule(db.tenants, db.products, dates), before.coupons, CouponRows(src), id);
  }

  /** ON CONFLICT DO NOTHING */
  lemma NeverMerged<R(!new)>(rule: Rule<R>, t: Table<R>, rows: seq<Keyed<R>>, id: Id)
    requires DistinctIds(rows) && Load(rule, t, rows).Some? && forall r, s :: rule.merge(r, s) == r
    ensures id in t ==> id in Load(rule, t, rows).value && Load(rule, t, rows).value[id] == t[id]
  {
    LoadedIs(rule, t, rows);
    hide Load, DistinctIds;
    if id in t && HasId(rows, id) {
      var i :| 0 <= i < |rows| && rows[i].id == id;
    }
  }
}
