/** When migration/mudahurus_migrate/__main__.py can load a legacy shop into an
    empty target: the exact conditions on the legacy rows. */
module MigrationSucceeds {
  import opened Text
  import opened LegacyTransforms
  import opened LegacyMigration
  import Orders

  // ---- one table ----

  /** The row passes its checks, finds what it refers to, and does not clash with
      an earlier row. */
  ghost predicate RowFits<R(!new)>(rule: Rule<R>, rows: seq<Keyed<R>>, i: nat)
    requires i < |rows|
  {
    && rule.checks(rows[i].row) && rule.refs(rows[i].row)
    && forall j :: 0 <= j < i ==> !rule.clash(rows[j].row, rows[i].row)
  }

  ghost predicate RowsFit<R(!new)>(rule: Rule<R>, rows: seq<Keyed<R>>) {
    forall i :: 0 <= i < |rows| ==> RowFits(rule, rows, i)
  }

  lemma RowsFitLast<R(!new)>(rule: Rule<R>, rows: seq<Keyed<R>>)
    requires rows != []
    ensures var n := |rows| - 1;
            RowsFit(rule, rows) <==> RowsFit(rule, rows[..n]) && RowFits(rule, rows, n)
  {
    var n := |rows| - 1;
    var front := rows[..n];
    forall i | 0 <= i < n
      ensures RowFits(rule, front, i) <==> RowFits(rule, rows, i)
    {
      assert forall j :: 0 <= j <= i ==> front[j] == rows[j];
    }
  }

  /** Rows with distinct ids load into an empty table exactly when each of them fits. */
  lemma {:induction false} LoadsIff<R(!new)>(rule: Rule<R>, rows: seq<Keyed<R>>)
    requires DistinctIds(rows)
    ensures Load(rule, map[], rows).Some? <==> RowsFit(rule, rows)
  {
    if rows != [] {
      var n := |rows| - 1;
      LoadsIff(rule, rows[..n]);
      RowsFitLast(rule, rows);
      if Load(rule, map[], rows[..n]).Some? { LastInserted(rule, rows); }
    }
  }

  lemma LastInserted<R(!new)>(rule: Rule<R>, rows: seq<Keyed<R>>)
    requires rows != [] && DistinctIds(rows) && Load(rule, map[], rows[..|rows| - 1]).Some?
    ensures var n := |rows| - 1;
            Insert(rule, Load(rule, map[], rows[..n]).value, rows[n]).Some? <==> RowFits(rule, rows, n)
  {
    var n := |rows| - 1;
    var front, k := rows[..n], rows[n];
    LoadFromEmpty(rule, front);
    var u := Load(rule, map[], front).value;
    hide Load;
    assert forall i :: 0 <= i < n ==> front[i] == rows[i] && front[i].id != k.id;
    forall id | id in u
      ensures exists i :: 0 <= i < n && rows[i].id == id && rows[i].row == u[id]
    {
      var i :| 0 <= i < n && front[i].id == id;
      assert rows[i] == front[i];
    }
    forall i | 0 <= i < n
      ensures rows[i].id in u && u[rows[i].id] == rows[i].row
    {
      assert front[i] == rows[i];
    }
  }

  // ---- the conditions, in terms of the legacy rows ----

  ghost predicate HasUser(src: Legacy, user: nat) {
    exists i :: 0 <= i < |SafeRows(src.users)| && SafeRows(src.users)[i].id == user
  }

  /** NULL and 0 refer to nothing; anything else must be a category of the same user. */
  ghost predicate CategoryFound(src: Legacy, id: Option<nat>, user: nat) {
    id.Some? && id.value != 0 ==>
      exists i :: 0 <= i < |SafeRows(src.categories)|
                  && SafeRows(src.categories)[i].id == id.value && SafeRows(src.categories)[i].userId == user
  }

  ghost predicate ProductFound(src: Legacy, id: Option<nat>, user: nat) {
    id.Some? && id.value != 0 ==>
      exists i :: 0 <= i < |SafeRows(src.products)|
                  && SafeRows(src.products)[i].id == id.value && SafeRows(src.products)[i].userId == user
  }

  predicate SameLogin(a: LegacyUser, b: LegacyUser) {
    LowerAll(Clean(a.username)) == LowerAll(Clean(b.username)) || LowerAll(Clean(a.email)) == LowerAll(Clean(b.email))
  }

  ghost predicate UserFits(src: Legacy, i: nat)
    requires i < |SafeRows(src.users)|
  {
    var rows := SafeRows(src.users);
    forall j :: 0 <= j < i ==> !SameLogin(rows[j], rows[i])
  }

  predicate SameCategory(a: LegacyCategory, b: LegacyCategory) {
    a.userId == b.userId && Or(Clean(a.category), Clean(a.name)) == Or(Clean(b.category), Clean(b.name))
  }

  ghost predicate CategoryFits(src: Legacy, i: nat)
    requires i < |SafeRows(src.categories)|
  {
    var rows := SafeRows(src.categories);
    HasUser(src, rows[i].userId) && forall j :: 0 <= j < i ==> !SameCategory(rows[j], rows[i])
  }

  predicate SameSku(a: LegacyProduct, b: LegacyProduct) {
    a.userId == b.userId && Clean(a.sku) == Clean(b.sku)
  }

  /** NUMERIC(12,2) with CHECK (>= 0) */
  predicate Storable(sen: int) {
    0 <= sen < 1_000_000_000_000
  }

  ghost predicate ProductFits(float: ParseFloat, src: Legacy, i: nat)
    requires i < |SafeRows(src.products)|
  {
    var rows := SafeRows(src.products);
    && HasUser(src, rows[i].userId) && CategoryFound(src, rows[i].categoryId, rows[i].userId)
    && Storable(Orders.RoundSen(CleanPrice(float, rows[i].unitPrice)))
    && forall j :: 0 <= j < i ==> !SameSku(rows[j], rows[i])
  }

  ghost predicate OrderFits(float: ParseFloat, dates: Dates, src: Legacy, i: nat)
    requires i < |SafeRows(src.orders)|
  {
    var r := SafeRows(src.orders)[i];
    && HasUser(src, r.userId) && Or(Clean(r.status), "pending") in
       {"pending", "payment_received", "payment_accepted", "shipped", "expired", "cancelled", "rejected"}
    && Storable(Orders.RoundSen(Total(float, r))) && dates.isTimestamp(Expiry(dates, r))
    && 0 < Quantity(r) < 0x8000_0000 && Storable(Orders.RoundSen(CleanPrice(float, r.unitPrice)))
    && -1_000_000_000_000 < Orders.RoundSen(LineTotal(float, r)) < 1_000_000_000_000
  }

  predicate SameLoyaltyCode(a: LegacyCustomer, b: LegacyCustomer) {
    a.userId == b.userId && Clean(a.loyaltyCode) == Clean(b.loyaltyCode)
  }

  ghost predicate CustomerFits(dates: Dates, src: Legacy, i: nat)
    requires i < |SafeRows(src.customers)|
  {
    var rows := SafeRows(src.customers);
    && HasUser(src, rows[i].userId) && (Truthy(rows[i].dob).Some? ==> dates.isDate(rows[i].dob.value))
    && forall j :: 0 <= j < i ==> !SameLoyaltyCode(rows[j], rows[i])
  }

  ghost predicate CouponFits(dates: Dates, src: Legacy, i: nat)
    requires i < |SafeRows(src.coupons)|
  {
    var r := SafeRows(src.coupons)[i];
    && HasUser(src, r.userId) && ProductFound(src, r.productId, r.userId)
    && (Truthy(r.expiredDate).Some? ==> dates.isTimestamp(r.expiredDate.value))
  }

  ghost predicate CatalogueFits(float: ParseFloat, src: Legacy) {
    && (forall i :: 0 <= i < |SafeRows(src.users)| ==> UserFits(src, i))
    && (forall i :: 0 <= i < |SafeRows(src.categories)| ==> CategoryFits(src, i))
    && (forall i :: 0 <= i < |SafeRows(src.products)| ==> ProductFits(float, src, i))
  }

  ghost predicate ShopFits(float: ParseFloat, dates: Dates, src: Legacy) {
    && CatalogueFits(float, src)
    && (forall i :: 0 <= i < |SafeRows(src.orders)| ==> OrderFits(float, dates, src, i))
    && (forall i :: 0 <= i < |SafeRows(src.customers)| ==> CustomerFits(dates, src, i))
    && (forall i :: 0 <= i < |SafeRows(src.coupons)| ==> CouponFits(dates, src, i))
  }

  // ---- table by table ----

  lemma SameTenant(u: nat, v: nat)
    ensures TenantName(u) == TenantName(v) <==> u == v
  {
    if TenantName(u) == TenantName(v) { NamesInjective(Order, 0, u, Order, 0, v); }
  }

  ghost predicate TenantsAre(src: Legacy, tenants: Table<TenantRow>) {
    forall u :: TenantName(u) in tenants <==> HasUser(src, u)
  }

  lemma UsersIff(src: Legacy)
    requires DistinctIds(UserRows(src))
    ensures Load(TenantRule(), map[], UserRows(src)).Some?
            <==> forall i :: 0 <= i < |SafeRows(src.users)| ==> UserFits(src, i)
    ensures Load(TenantRule(), map[], UserRows(src)).Some?
            ==> TenantsAre(src, Load(TenantRule(), map[], UserRows(src)).value)
  {
    hide Load, DistinctIds, TenantName, LowerAll, Clean, FullName, Or;
    var rows, us := UserRows(src), SafeRows(src.users);
    LoadsIff(TenantRule(), rows);
    forall i | 0 <= i < |us|
      ensures RowFits(TenantRule(), rows, i) <==> UserFits(src, i)
    {
    }
    if Load(TenantRule(), map[], rows).Some? {
      LoadFromEmpty(TenantRule(), rows);
      LoadedTenants(src, Load(TenantRule(), map[], rows).value);
    }
  }

  lemma LoadedTenants(src: Legacy, tenants: Table<TenantRow>)
    requires var rows := UserRows(src);
             && (forall i :: 0 <= i < |rows| ==> rows[i].id in tenants)
             && (forall id :: id in tenants ==> exists i :: 0 <= i < |rows| && rows[i].id == id)
    ensures TenantsAre(src, tenants)
  {
    hide TenantName, LowerAll, Clean, FullName, Or;
    var rows, us := UserRows(src), SafeRows(src.users);
    forall u
      ensures TenantName(u) in tenants <==> HasUser(src, u)
    {
      if TenantName(u) in tenants {
        var i :| 0 <= i < |rows| && rows[i].id == TenantName(u);
        SameTenant(us[i].id, u);
      }
      if HasUser(src, u) {
        var i :| 0 <= i < |us| && us[i].id == u;
        assert rows[i].id == TenantName(u);
      }
    }
  }

  lemma CategoriesIff(src: Legacy, tenants: Table<TenantRow>)
    requires DistinctIds(CategoryRows(src)) && TenantsAre(src, tenants)
    ensures Load(CategoryRule(tenants), map[], CategoryRows(src)).Some?
            <==> forall i :: 0 <= i < |SafeRows(src.categories)| ==> CategoryFits(src, i)
  {
    hide Load, DistinctIds, TenantName, RowName, Clean, Or, HasUser;
    var rule, rows, cs := CategoryRule(tenants), CategoryRows(src), SafeRows(src.categories);
    LoadsIff(rule, rows);
    forall i | 0 <= i < |cs|
      ensures RowFits(rule, rows, i) <==> CategoryFits(src, i)
    {
      forall j | 0 <= j < i
        ensures rule.clash(rows[j].row, rows[i].row) <==> SameCategory(cs[j], cs[i])
      {
        SameTenant(cs[j].userId, cs[i].userId);
      }
    }
  }

  /** A name is in the loaded table exactly when a legacy row has its parts. */
  lemma NameLoadedIff<R(!new)>(rule: Rule<R>, rows: seq<Keyed<R>>, kind: Kind, parts: seq<(nat, nat)>,
                               id: nat, user: nat)
    requires DistinctIds(rows) && Load(rule, map[], rows).Some? && |parts| == |rows|
    requires forall i :: 0 <= i < |rows| ==> rows[i].id == RowName(kind, parts[i].0, parts[i].1)
    ensures RowName(kind, id, user) in Load(rule, map[], rows).value <==> (id, user) in parts
  {
    LoadFromEmpty(rule, rows);
    hide Load, DistinctIds, RowName;
    if RowName(kind, id, user) in Load(rule, map[], rows).value {
      var i :| 0 <= i < |rows| && rows[i].id == RowName(kind, id, user);
      NamesInjective(kind, parts[i].0, parts[i].1, kind, id, user);
    }
  }

  lemma CategoryRefIff(src: Legacy, rule: Rule<CategoryRow>, id: Option<nat>, user: nat)
    requires DistinctIds(CategoryRows(src)) && Load(rule, map[], CategoryRows(src)).Some?
    ensures var ref := Reference(Category, id, user);
            (ref.Some? ==> ref.value in Load(rule, map[], CategoryRows(src)).value) <==> CategoryFound(src, id, user)
  {
    hide Load, DistinctIds, RowName, TenantName, Clean, Or;
    var cs := SafeRows(src.categories);
    var parts := seq(|cs|, i requires 0 <= i < |cs| => (cs[i].id, cs[i].userId));
    if id.Some? { NameLoadedIff(rule, CategoryRows(src), Category, parts, id.value, user); }
  }

  lemma ProductRefIff(float: ParseFloat, src: Legacy, rule: Rule<ProductRow>, id: Option<nat>, user: nat)
    requires DistinctIds(ProductRows(float, src)) && Load(rule, map[], ProductRows(float, src)).Some?
    ensures var ref := Reference(Product, id, user);
            (ref.Some? ==> ref.value in Load(rule, map[], ProductRows(float, src)).value)
            <==> ProductFound(src, id, user)
  {
    hide Load, DistinctIds, RowName, TenantName, Clean, Or, Orders.RoundSen;
    var ps := SafeRows(src.products);
    var parts := seq(|ps|, i requires 0 <= i < |ps| => (ps[i].id, ps[i].userId));
    if id.Some? { NameLoadedIff(rule, ProductRows(float, src), Product, parts, id.value, user); }
  }

  lemma ProductsIff(float: ParseFloat, src: Legacy, tenants: Table<TenantRow>)
    requires DistinctIds(ProductRows(float, src)) && DistinctIds(CategoryRows(src)) && TenantsAre(src, tenants)
    requires Load(CategoryRule(tenants), map[], CategoryRows(src)).Some?
    ensures var categories := Load(CategoryRule(tenants), map[], CategoryRows(src)).value;
            Load(ProductRule(tenants, categories), map[], ProductRows(float, src)).Some?
            <==> forall i :: 0 <= i < |SafeRows(src.products)| ==> ProductFits(float, src, i)
  {
    hide Load, DistinctIds, TenantName, RowName, Clean, HasUser, CategoryFound, Orders.RoundSen, CleanPrice;
    var categories := Load(CategoryRule(tenants), map[], CategoryRows(src)).value;
    var rule, rows, ps := ProductRule(tenants, categories), ProductRows(float, src), SafeRows(src.products);
    LoadsIff(rule, rows);
    forall i | 0 <= i < |ps|
      ensures RowFits(rule, rows, i) <==> ProductFits(float, src, i)
    {
      CategoryRefIff(src, CategoryRule(tenants), ps[i].categoryId, ps[i].userId);
      forall j | 0 <= j < i
        ensures rule.clash(rows[j].row, rows[i].row) <==> SameSku(ps[j], ps[i])
      {
        SameTenant(ps[j].userId, ps[i].userId);
      }
    }
  }

  lemma OrderChecks(float: ParseFloat, dates: Dates, src: Legacy, tenants: Table<TenantRow>, i: nat)
    requires TenantsAre(src, tenants) && i < |SafeRows(src.orders)|
    ensures var r := SafeRows(src.orders)[i];
            var o, it := TransformHeader(float, dates, r).row, TransformItem(float, r).row;
            OrderRule(tenants, dates).checks(o) && OrderRule(tenants, dates).refs(o)
            && ItemRule().checks(it) && ItemRule().refs(it)
            <==> OrderFits(float, dates, src, i)
    ensures forall a, b :: !OrderRule(tenants, dates).clash(a, b)
    ensures forall a, b :: !ItemRule().clash(a, b)
  {
    var r := SafeRows(src.orders)[i];
    StatusesAre(Or(Clean(r.status), "pending"));
    hide TenantName, RowName, Clean, HasUser, Orders.RoundSen, CleanPrice, Total, LineTotal, Expiry, Or, Quantity;
    hide STATUSES;
  }

  lemma StatusesAre(s: string)
    ensures s in STATUSES <==> s in {"pending", "payment_received", "payment_accepted", "shipped", "expired",
                                     "cancelled", "rejected"}
  {
  }

  /** An order's header, item and payment all load exactly when it fits. */
  lemma OrdersIff(float: ParseFloat, dates: Dates, src: Legacy, tenants: Table<TenantRow>)
    requires var rows := SafeRows(src.orders);
             DistinctIds(HeaderRows(float, dates, rows)) && DistinctIds(ItemRows(float, rows))
             && DistinctIds(PaymentRows(float, rows))
    requires TenantsAre(src, tenants)
    ensures var rows := SafeRows(src.orders);
            (&& Load(OrderRule(tenants, dates), map[], HeaderRows(float, dates, rows)).Some?
             && Load(ItemRule(), map[], ItemRows(float, rows)).Some?
             && Load(PaymentRule(), map[], PaymentRows(float, rows)).Some?)
            <==> forall i :: 0 <= i < |rows| ==> OrderFits(float, dates, src, i)
  {
    hide Load, DistinctIds, TenantName, RowName, Clean, HasUser, Orders.RoundSen, CleanPrice, Total, LineTotal, Expiry;
    hide Or, Quantity;
    var rows := SafeRows(src.orders);
    var headers, items := HeaderRows(float, dates, rows), ItemRows(float, rows);
    LoadsIff(OrderRule(tenants, dates), headers);
    LoadsIff(ItemRule(), items);
    LoadsIff(PaymentRule(), PaymentRows(float, rows));
    forall i | 0 <= i < |rows|
      ensures RowFits(OrderRule(tenants, dates), headers, i) && RowFits(ItemRule(), items, i)
              <==> OrderFits(float, dates, src, i)
    {
      hide OrderFits, OrderRule, ItemRule, TransformHeader, TransformItem;
      assert headers[i] == TransformHeader(float, dates, rows[i]) && items[i] == TransformItem(float, rows[i]);
      OrderChecks(float, dates, src, tenants, i);
    }
    if forall i :: 0 <= i < |rows| ==> OrderFits(float, dates, src, i) {
      forall i | 0 <= i < |rows|
        ensures Storable(Orders.RoundSen(Total(float, rows[i])))
      {
        assert OrderFits(float, dates, src, i);
      }
      PaymentsFit(float, rows);
    }
  }

  /** A payment is for its order's total, so it fits when the order does. */
  lemma {:induction false} PaymentsFit(float: ParseFloat, rows: seq<LegacyOrder>)
    requires forall i :: 0 <= i < |rows| ==> Storable(Orders.RoundSen(Total(float, rows[i])))
    ensures RowsFit(PaymentRule(), PaymentRows(float, rows))
  {
    hide RowName, Clean, Orders.RoundSen, Total;
    if rows != [] {
      var front := rows[..|rows| - 1];
      PaymentsFit(float, front);
      var p, before := TransformPayment(float, rows[|rows| - 1]), PaymentRows(float, front);
      if p.Some? {
        var ps := before + [p.value];
        assert ps[..|ps| - 1] == before && ps == PaymentRows(float, rows);
        assert RowFits(PaymentRule(), ps, |ps| - 1);
        RowsFitLast(PaymentRule(), ps);
      } else {
        assert before + [] == before;
      }
    }
  }

  lemma CustomersIff(dates: Dates, src: Legacy, tenants: Table<TenantRow>)
    requires DistinctIds(CustomerRows(src)) && TenantsAre(src, tenants)
    ensures Load(CustomerRule(tenants, dates), map[], CustomerRows(src)).Some?
            <==> forall i :: 0 <= i < |SafeRows(src.customers)| ==> CustomerFits(dates, src, i)
  {
    hide Load, DistinctIds, TenantName, RowName, Clean, Or, HasUser;
    var rule, rows, cs := CustomerRule(tenants, dates), CustomerRows(src), SafeRows(src.customers);
    LoadsIff(rule, rows);
    forall i | 0 <= i < |cs|
      ensures RowFits(rule, rows, i) <==> CustomerFits(dates, src, i)
    {
      forall j | 0 <= j < i
        ensures rule.clash(rows[j].row, rows[i].row) <==> SameLoyaltyCode(cs[j], cs[i])
      {
        SameTenant(cs[j].userId, cs[i].userId);
      }
    }
  }

  lemma CouponsIff(float: ParseFloat, dates: Dates, src: Legacy, tenants: Table<TenantRow>, products: Rule<ProductRow>)
    requires DistinctIds(CouponRows(src)) && DistinctIds(ProductRows(float, src)) && TenantsAre(src, tenants)
    requires Load(products, map[], ProductRows(float, src)).Some?
    ensures var table := Load(products, map[], ProductRows(float, src)).value;
            Load(CouponRule(tenants, table, dates), map[], CouponRows(src)).Some?
            <==> forall i :: 0 <= i < |SafeRows(src.coupons)| ==> CouponFits(dates, src, i)
  {
    hide Load, DistinctIds, TenantName, RowName, Clean, HasUser, ProductFound;
    var table := Load(products, map[], ProductRows(float, src)).value;
    var rule, rows, cs := CouponRule(tenants, table, dates), CouponRows(src), SafeRows(src.coupons);
    LoadsIff(rule, rows);
    forall i | 0 <= i < |cs|
      ensures RowFits(rule, rows, i) <==> CouponFits(dates, src, i)
    {
      ProductRefIff(float, src, products, cs[i].productId, cs[i].userId);
    }
  }

  // ---- the whole run ----

  /** Main result. A shop migrates into an empty target exactly when every one of
      its rows fits; otherwise the run rolls back and nothing is loaded. */
  lemma MigratesIff(float: ParseFloat, dates: Dates, src: Legacy)
    requires LegacyKeys(src)
    ensures (exists db :: Migrates(EMPTY, src, float, dates, db)) <==> ShopFits(float, dates, src)
  {
    if db :| Migrates(EMPTY, src, float, dates, db) {
      MigratedFits(float, dates, src, db);
    }
    if ShopFits(float, dates, src) {
      var db := FittingMigrates(float, dates, src);
    }
  }

  lemma MigratedFits(float: ParseFloat, dates: Dates, src: Legacy, db: Db)
    requires LegacyKeys(src) && Migrates(EMPTY, src, float, dates, db)
    ensures ShopFits(float, dates, src)
  {
    AllDistinct(src, float, dates);
    hide Load, DistinctIds, LegacyKeys, TenantRule, CategoryRule, ProductRule, OrderRule, ItemRule, PaymentRule;
    hide CustomerRule, CouponRule, TenantsAre;
    hide UserFits, CategoryFits, ProductFits, OrderFits, CustomerFits, CouponFits;
    UsersIff(src);
    CategoriesIff(src, db.tenants);
    ProductsIff(float, src, db.tenants);
    OrdersIff(float, dates, src, db.tenants);
    CustomersIff(dates, src, db.tenants);
    CouponsIff(float, dates, src, db.tenants, ProductRule(db.tenants, db.categories));
  }

  lemma FittingMigrates(float: ParseFloat, dates: Dates, src: Legacy) returns (db: Db)
    requires LegacyKeys(src) && ShopFits(float, dates, src)
    ensures Migrates(EMPTY, src, float, dates, db)
  {
    AllDistinct(src, float, dates);
    hide Load, DistinctIds, LegacyKeys, TenantRule, CategoryRule, ProductRule, OrderRule, ItemRule, PaymentRule;
    hide CustomerRule, CouponRule, TenantsAre;
    hide UserFits, CategoryFits, ProductFits, OrderFits, CustomerFits, CouponFits;
    var orders := SafeRows(src.orders);
    UsersIff(src);
    var tenants := Load(TenantRule(), map[], UserRows(src)).value;
    CategoriesIff(src, tenants);
    var categories := Load(CategoryRule(tenants), map[], CategoryRows(src)).value;
    ProductsIff(float, src, tenants);
    var products := Load(ProductRule(tenants, categories), map[], ProductRows(float, src)).value;
    OrdersIff(float, dates, src, tenants);
    CustomersIff(dates, src, tenants);
    CouponsIff(float, dates, src, tenants, ProductRule(tenants, categories));
    db := Db(tenants, categories, products,
             Load(OrderRule(tenants, dates), map[], HeaderRows(float, dates, orders)).value,
             Load(ItemRule(), map[], ItemRows(float, orders)).value,
             Load(PaymentRule(), map[], PaymentRows(float, orders)).value,
             Load(CustomerRule(tenants, dates), map[], CustomerRows(src)).value,
             Load(CouponRule(tenants, products, dates), map[], CouponRows(src)).value);
  }

  /** A seller with two customers who have no loyalty code blocks the whole run. */
  lemma TwoCodelessCustomersBlock(float: ParseFloat, dates: Dates, src: Legacy, i: nat, j: nat, db: Db)
    requires LegacyKeys(src) && i < j < |SafeRows(src.customers)|
    requires var a, b := SafeRows(src.customers)[i], SafeRows(src.customers)[j];
             a.userId == b.userId && Clean(a.loyaltyCode) == Clean(b.loyaltyCode) == ""
    ensures !Migrates(EMPTY, src, float, dates, db)
  {
    hide Migrates, Clean, HasUser;
    assert SameLoyaltyCode(SafeRows(src.customers)[i], SafeRows(src.customers)[j]);
    assert !CustomerFits(dates, src, j);
    if Migrates(EMPTY, src, float, dates, db) {
      MigratedFits(float, dates, src, db);
    }
  }
}
