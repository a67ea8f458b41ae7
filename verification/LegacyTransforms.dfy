/** The row transforms of the legacy migration (transforms.py in
    migration/mudahurus_migrate) and the parity view of 000003_orders.up.sql.
    uuid5 is taken to be injective, so an id is written as the name it is derived
    from. */
module LegacyTransforms {
  import opened Text
  import Embeddings
  import Orders

  type Id = string

  /** A column that may be NULL. */
  type Field = Option<string>

  // ---- deterministic ids ----

  datatype Kind = Category | Product | Order | OrderItem | Payment | Customer | Coupon

  function KindName(k: Kind): string {
    match k
    case Category => "category"
    case Product => "product"
    case Order => "order"
    case OrderItem => "order_item"
    case Payment => "payment"
    case Customer => "customer"
    case Coupon => "coupon"
  }

  function TenantName(userId: nat): Id {
    "tenant" + [':'] + Dec(userId)
  }

  function RowName(kind: Kind, legacyId: nat, userId: nat): Id {
    KindName(kind) + [':'] + (Dec(userId) + [':'] + Dec(legacyId))
  }

  lemma DecClean(n: nat)
    ensures ':' !in Dec(n)
  {
    assert AllDigits(Dec(n));
  }

  lemma TenantNameParts(userId: nat)
    ensures Split(TenantName(userId), ':') == ["tenant", Dec(userId)]
  {
    DecClean(userId);
    hide Dec, Split;
    SplitAtSeparator("tenant", ':', Dec(userId));
    SplitNoSeparator(Dec(userId), ':');
  }

  lemma RowNameParts(kind: Kind, legacyId: nat, userId: nat)
    ensures Split(RowName(kind, legacyId, userId), ':') == [KindName(kind), Dec(userId), Dec(legacyId)]
  {
    DecClean(userId);
    DecClean(legacyId);
    KindNameClean(kind);
    hide Dec, KindName, Split;
    SplitAtSeparator(KindName(kind), ':', Dec(userId) + [':'] + Dec(legacyId));
    SplitAtSeparator(Dec(userId), ':', Dec(legacyId));
    SplitNoSeparator(Dec(legacyId), ':');
  }

  lemma KindNameClean(kind: Kind)
    ensures ':' !in KindName(kind)
  {
  }

  lemma KindNameInjective(a: Kind, b: Kind)
    requires KindName(a) == KindName(b)
    ensures a == b
  {
    assert KindName(a)[..3] == KindName(b)[..3];
    assert |KindName(a)| == |KindName(b)|;
  }

  /** Names of different rows, kinds or tenants differ. */
  lemma NamesInjective(k1: Kind, i1: nat, u1: nat, k2: Kind, i2: nat, u2: nat)
    ensures RowName(k1, i1, u1) == RowName(k2, i2, u2) ==> k1 == k2 && i1 == i2 && u1 == u2
    ensures TenantName(u1) == TenantName(u2) ==> u1 == u2
    ensures RowName(k1, i1, u1) != TenantName(u2)
  {
    RowNameParts(k1, i1, u1);
    RowNameParts(k2, i2, u2);
    TenantNameParts(u1);
    TenantNameParts(u2);
    if RowName(k1, i1, u1) == RowName(k2, i2, u2) {
      KindNameInjective(k1, k2);
      DecInjective(i1, i2);
      DecInjective(u1, u2);
    }
    if TenantName(u1) == TenantName(u2) {
      DecInjective(u1, u2);
    }
  }

  // ---- cleaning ----

  function Clean(v: Field): string {
    if v.None? then "" else Strip(v.value)
  }

  lemma CleanTwice(v: Field)
    ensures Clean(Some(Clean(v))) == Clean(v)
  {
    if v.Some? { StripTwice(v.value); }
  }

  /** `first or second` on strings. */
  function Or(first: string, second: string): string {
    if first != "" then first else second
  }

  datatype Price = Null | Str(s: string) | Num(x: real)

  /** float(): None for ValueError. */
  type ParseFloat = string -> Option<real>

  function WithoutCommas(s: string): string {
    if s == [] then [] else (if s[0] == ',' then [] else [s[0]]) + WithoutCommas(s[1..])
  }

  function CleanPrice(float: ParseFloat, v: Price): real {
    match v
    case Null => 0.0
    case Num(x) => x
    case Str(s) =>
      var x := if s == "" then None else float(WithoutCommas(s));
      if x.None? then 0.0 else x.value
  }

  // ---- the legacy tables ----

  datatype LegacyUser = LegacyUser(
    id: nat, username: Field, email: Field, password: Field,
    firstName: Field, lastName: Field, company: Field, phone: Field)
  datatype LegacyCategory = LegacyCategory(id: nat, userId: nat, category: Field, name: Field, description: Field)
  datatype LegacyProduct = LegacyProduct(
    id: nat, userId: nat, categoryId: Option<nat>, sku: Field, productName: Field, description: Field,
    unitPrice: Price, status: Field)
  datatype LegacyOrder = LegacyOrder(
    id: nat, userId: nat, sku: Field, quantity: Option<int>, unitPrice: Price, totalPrice: Price, status: Field,
    fullName: Field, email: Field, contactNo: Field,
    mailingAddr: Field, mailingAddr2: Field, city: Field, postcode: Field, state: Field,
    additionalNotes: Field, expiredDate: Field, insertDate: Field, paymentImageProof: Field)
  datatype LegacyCustomer = LegacyCustomer(
    id: nat, userId: nat, fullName: Field, icNo: Field, dob: Field, email: Field, contactNo: Field,
    mailingAddr: Field, city: Field, postcode: Field, state: Field, loyaltyCode: Field, kind: Field)
  datatype LegacyCoupon = LegacyCoupon(
    id: nat, userId: nat, productId: Option<nat>, campaign: Field, description: Field, expiredDate: Field)

  /** A table that cannot be read counts as empty, with a warning. */
  datatype Source<T> = Source(rows: seq<T>, readable: bool)

  function SafeRows<T>(s: Source<T>): seq<T> {
    if s.readable then s.rows else []
  }

  datatype Legacy = Legacy(
    users: Source<LegacyUser>, categories: Source<LegacyCategory>, products: Source<LegacyProduct>,
    orders: Source<LegacyOrder>, customers: Source<LegacyCustomer>, coupons: Source<LegacyCoupon>)

  // ---- the target rows, as stored: amounts in whole sen ----

  datatype TenantRow = TenantRow(
    legacyUserId: nat, username: string, email: string, passwordHash: string,
    fullName: string, storeName: string, phone: string)
  datatype CategoryRow = CategoryRow(tenant: Id, name: string, description: string)
  datatype ProductRow = ProductRow(
    tenant: Id, category: Option<Id>, sku: string, productName: string, description: string,
    unitPrice: int, active: bool)
  datatype Address = Address(mailingAddr: string, mailingAddr2: string, city: string, postcode: string, state: string)
  datatype OrderRow = OrderRow(
    tenant: Id, status: string, fullName: string, email: string, contactNo: string, shipping: Address,
    additionalNotes: string, totalPrice: int, expires: string)
  datatype ItemRow = ItemRow(order: Id, sku: string, quantity: int, unitPrice: int, lineTotal: int)
  datatype PaymentRow = PaymentRow(order: Id, proofKey: string, amount: int, status: string)
  datatype CustomerRow = CustomerRow(
    tenant: Id, fullName: string, icNo: string, dob: Field, email: string, contactNo: string,
    mailingAddr: string, city: string, postcode: string, state: string, loyaltyCode: string, kind: string)
  datatype CouponRow = CouponRow(tenant: Id, product: Option<Id>, campaign: string, description: string, expires: Field)

  datatype Keyed<R> = Keyed(id: Id, row: R)

  // ---- the transforms ----

  function LowerAll(s: string): string {
    seq(|s|, i requires 0 <= i < |s| => Embeddings.Lower(s[i]))
  }

  function Truthy(v: Field): Option<string> {
    if v.Some? && v.value != "" then v else None
  }

  function FullName(first: Field, last: Field): string {
    var words := (if Truthy(first).Some? then [Clean(first)] else [])
        + (if Truthy(last).Some? then [Clean(last)] else []);
    Strip(Join(words))
  }

  function TransformUser(r: LegacyUser): Keyed<TenantRow> {
    Keyed(TenantName(r.id),
          TenantRow(r.id, LowerAll(Clean(r.username)), LowerAll(Clean(r.email)), Or(Clean(r.password), "!legacy"),
                    FullName(r.firstName, r.lastName), Clean(r.company), Clean(r.phone)))
  }

  function TransformCategory(r: LegacyCategory): Keyed<CategoryRow> {
    Keyed(RowName(Category, r.id, r.userId),
          CategoryRow(TenantName(r.userId), Or(Clean(r.category), Clean(r.name)), Clean(r.description)))
  }

  /** Neither NULL nor 0 refers to anything. */
  function Reference(kind: Kind, legacyId: Option<nat>, userId: nat): Option<Id> {
    if legacyId.None? || legacyId.value == 0 then None else Some(RowName(kind, legacyId.value, userId))
  }

  function TransformProduct(float: ParseFloat, r: LegacyProduct): Keyed<ProductRow> {
    Keyed(RowName(Product, r.id, r.userId),
          ProductRow(TenantName(r.userId), Reference(Category, r.categoryId, r.userId), Clean(r.sku),
                     Clean(r.productName), Clean(r.description), Orders.RoundSen(CleanPrice(float, r.unitPrice)),
                     Clean(r.status) == "" || Clean(r.status) == "active"))
  }

  /** Dates stay texts. `plusThree` gives None for a date it cannot read, `clock`
      is three days from the moment the order with that id is reached, and the
      last two say which texts the target accepts. */
  datatype Dates = Dates(
    plusThree: string -> Option<string>, clock: nat -> string,
    isTimestamp: string -> bool, isDate: string -> bool)

  function Expiry(dates: Dates, r: LegacyOrder): string {
    if Truthy(r.expiredDate).Some? then r.expiredDate.value
    else if Truthy(r.insertDate).None? then dates.clock(r.id)
    else
      var d := dates.plusThree(r.insertDate.value);
      if d.None? then dates.clock(r.id) else d.value
  }

  function Quantity(r: LegacyOrder): int {
    if r.quantity.None? || r.quantity.value == 0 then 1 else r.quantity.value
  }

  function Amount(quantity: int, unit: real): real {
    quantity as real * unit
  }

  function LineTotal(float: ParseFloat, r: LegacyOrder): real {
    Amount(Quantity(r), CleanPrice(float, r.unitPrice))
  }

  function Total(float: ParseFloat, r: LegacyOrder): real {
    var total := CleanPrice(float, r.totalPrice);
    if total != 0.0 then total else LineTotal(float, r)
  }

  function TransformHeader(float: ParseFloat, dates: Dates, r: LegacyOrder): Keyed<OrderRow> {
    Keyed(RowName(Order, r.id, r.userId),
          OrderRow(TenantName(r.userId), Or(Clean(r.status), "pending"), Clean(r.fullName), Clean(r.email),
                   Clean(r.contactNo),
                   Address(Clean(r.mailingAddr), Clean(r.mailingAddr2),
                           Clean(r.city), Clean(r.postcode), Clean(r.state)),
                   Clean(r.additionalNotes), Orders.RoundSen(Total(float, r)), Expiry(dates, r)))
  }

  function TransformItem(float: ParseFloat, r: LegacyOrder): Keyed<ItemRow> {
    Keyed(RowName(OrderItem, r.id, r.userId),
          ItemRow(RowName(Order, r.id, r.userId), Clean(r.sku), Quantity(r),
                  Orders.RoundSen(CleanPrice(float, r.unitPrice)), Orders.RoundSen(LineTotal(float, r))))
  }

  function TransformPayment(float: ParseFloat, r: LegacyOrder): Option<Keyed<PaymentRow>> {
    var status := Or(Clean(r.status), "pending");
    if Clean(r.paymentImageProof) == "" then None
    else
      Some(Keyed(RowName(Payment, r.id, r.userId),
                 PaymentRow(RowName(Order, r.id, r.userId), "", Orders.RoundSen(Total(float, r)),
                            if status == "payment_accepted" || status == "shipped" then "verified" else "submitted")))
  }

  function TransformCustomer(r: LegacyCustomer): Keyed<CustomerRow> {
    Keyed(RowName(Customer, r.id, r.userId),
          CustomerRow(TenantName(r.userId), Clean(r.fullName), Clean(r.icNo), Truthy(r.dob), Clean(r.email),
                      Clean(r.contactNo), Clean(r.mailingAddr), Clean(r.city), Clean(r.postcode), Clean(r.state),
                      Clean(r.loyaltyCode), Or(Clean(r.kind), "regular")))
  }

  function TransformCoupon(r: LegacyCoupon): Keyed<CouponRow> {
    Keyed(RowName(Coupon, r.id, r.userId),
          CouponRow(TenantName(r.userId), Reference(Product, r.productId, r.userId), Clean(r.campaign),
                    Clean(r.description), Truthy(r.expiredDate)))
  }

  // ---- the parity view ----

  /** orders_legacy_flat for an order, its one item and its latest proof key. */
  function FlatView(id: nat, userId: nat, o: OrderRow, i: ItemRow, created: string, proofKey: string): LegacyOrder {
    LegacyOrder(
      id, userId, Some(i.sku), Some(i.quantity), Num(i.unitPrice as real / 100.0), Num(o.totalPrice as real / 100.0),
      Some(o.status), Some(o.fullName), Some(o.email), Some(o.contactNo),
      Some(o.shipping.mailingAddr), Some(o.shipping.mailingAddr2), Some(o.shipping.city), Some(o.shipping.postcode),
      Some(o.shipping.state), Some(o.additionalNotes), Some(o.expires), Some(created), Some(proofKey))
  }

  function Rounded(x: real): Price {
    Num(Orders.RoundSen(x) as real / 100.0)
  }

  /** The legacy row with its texts stripped, its defaults filled in and its
      prices rounded to the sen. */
  function CleanedRow(float: ParseFloat, dates: Dates, r: LegacyOrder, created: string): LegacyOrder {
    r.(sku := Some(Clean(r.sku)), quantity := Some(Quantity(r)),
       unitPrice := Rounded(CleanPrice(float, r.unitPrice)), totalPrice := Rounded(Total(float, r)),
       status := Some(if Clean(r.status) == "" then "pending" else Clean(r.status)),
       fullName := Some(Clean(r.fullName)), email := Some(Clean(r.email)), contactNo := Some(Clean(r.contactNo)),
       mailingAddr := Some(Clean(r.mailingAddr)), mailingAddr2 := Some(Clean(r.mailingAddr2)),
       city := Some(Clean(r.city)), postcode := Some(Clean(r.postcode)), state := Some(Clean(r.state)),
       additionalNotes := Some(Clean(r.additionalNotes)), expiredDate := Some(Expiry(dates, r)),
       insertDate := Some(created), paymentImageProof := Some(""))
  }

  /** The view over a migrated order gives back the cleaned legacy row. */
  lemma ViewIsCleanedRow(float: ParseFloat, dates: Dates, r: LegacyOrder, created: string)
    ensures FlatView(r.id, r.userId, TransformHeader(float, dates, r).row, TransformItem(float, r).row, created, "") ==
            CleanedRow(float, dates, r, created)
  {
    hide Clean, CleanPrice, Expiry, Orders.RoundSen, LineTotal;
  }

  /** The flat row of a migrated order, transformed again. */
  function Again(float: ParseFloat, dates: Dates, r: LegacyOrder, created: string): LegacyOrder {
    FlatView(r.id, r.userId, TransformHeader(float, dates, r).row, TransformItem(float, r).row, created, "")
  }

  function UnitSen(float: ParseFloat, r: LegacyOrder): int {
    Orders.RoundSen(CleanPrice(float, r.unitPrice))
  }

  function LineSen(quantity: int, sen: int): int {
    quantity * sen
  }

  lemma SenRoundTrip(sen: int)
    ensures Orders.RoundSen(sen as real / 100.0) == sen
  {
    Orders.RoundWhole(sen as real / 100.0, sen);
  }

  lemma LineOfSen(quantity: int, sen: int)
    ensures Orders.RoundSen(Amount(quantity, sen as real / 100.0)) == LineSen(quantity, sen)
  {
    var x := Amount(quantity, sen as real / 100.0);
    assert x * 100.0 == (quantity * sen) as real;
    Orders.RoundWhole(x, quantity * sen);
  }

  /** The amounts of the second pass. */
  lemma AmountsAgain(float: ParseFloat, dates: Dates, r: LegacyOrder, created: string)
    ensures var again := Again(float, dates, r, created);
            && Quantity(again) == Quantity(r) && UnitSen(float, again) == UnitSen(float, r)
            && Orders.RoundSen(LineTotal(float, again)) == LineSen(Quantity(r), UnitSen(float, r))
            && Orders.RoundSen(Total(float, again)) ==
               (if Orders.RoundSen(Total(float, r)) != 0 then Orders.RoundSen(Total(float, r))
                else LineSen(Quantity(r), UnitSen(float, r)))
  {
    hide Orders.RoundSen, Clean, Expiry, Amount, LineSen;
    SenRoundTrip(UnitSen(float, r));
    SenRoundTrip(Orders.RoundSen(Total(float, r)));
    LineOfSen(Quantity(r), UnitSen(float, r));
  }

  lemma TextsAgain(float: ParseFloat, dates: Dates, r: LegacyOrder, created: string)
    ensures var h := TransformHeader(float, dates, r).row;
            var h2 := TransformHeader(float, dates, Again(float, dates, r, created)).row;
            h2.(totalPrice := h.totalPrice, expires := h.expires) == h
    ensures var i, i2 := TransformItem(float, r), TransformItem(float, Again(float, dates, r, created));
            i2.id == i.id && i2.row.order == i.row.order && i2.row.sku == i.row.sku
  {
    CleanTwice(r.sku);
    CleanTwice(r.status);
    CleanTwice(r.fullName);
    CleanTwice(r.email);
    CleanTwice(r.contactNo);
    CleanTwice(r.mailingAddr);
    CleanTwice(r.mailingAddr2);
    CleanTwice(r.city);
    CleanTwice(r.postcode);
    CleanTwice(r.state);
    CleanTwice(r.additionalNotes);
    assert Clean(Some("pending")) == "pending";
    hide Orders.RoundSen, Clean, Expiry, Total, LineTotal, CleanPrice;
  }

  /** What a caller can check: the stored line total is quantity times the stored
      unit price, and a stored total of zero means that line is zero too. */
  predicate AmountsAgree(float: ParseFloat, r: LegacyOrder) {
    var line := LineSen(Quantity(r), UnitSen(float, r));
    && Orders.RoundSen(LineTotal(float, r)) == line
    && (Orders.RoundSen(Total(float, r)) == 0 ==> line == 0)
  }

  /** Normalising is a retraction exactly then: transforming the flat row again
      gives the same header (expiry aside) and the same item. */
  lemma RetractionIffAmountsAgree(float: ParseFloat, dates: Dates, r: LegacyOrder, created: string)
    ensures var again := Again(float, dates, r, created);
            var h, h2 := TransformHeader(float, dates, r).row, TransformHeader(float, dates, again).row;
            h2.(expires := h.expires) == h && TransformItem(float, again) == TransformItem(float, r)
            <==> AmountsAgree(float, r)
  {
    AmountsAgain(float, dates, r, created);
    TextsAgain(float, dates, r, created);
    hide Orders.RoundSen, Clean, Expiry, Total, LineTotal, CleanPrice, Again, LineSen, Quantity;
  }

  /** Prices that are whole numbers of sen always agree. */
  lemma WholeSenAgrees(float: ParseFloat, r: LegacyOrder)
    requires Orders.WholeSen(CleanPrice(float, r.unitPrice)) && Orders.WholeSen(CleanPrice(float, r.totalPrice))
    ensures AmountsAgree(float, r)
  {
    var unit, q := CleanPrice(float, r.unitPrice), Quantity(r);
    var sen := UnitSen(float, r);
    assert unit == sen as real / 100.0;
    LineOfSen(q, sen);
    var total := CleanPrice(float, r.totalPrice);
    if total != 0.0 {
      assert Orders.RoundSen(total) as real == total * 100.0;
    }
  }

  /** Prices below a sen do not: three at half a sen are stored as 1 sen each and
      2 sen together. */
  lemma HalfSenDrifts(float: ParseFloat, r: LegacyOrder)
    requires r.unitPrice == Num(0.005) && r.quantity == Some(3)
    ensures !AmountsAgree(float, r)
  {
    assert CleanPrice(float, r.unitPrice) == 0.005 && Quantity(r) == 3;
    assert Orders.RoundSen(0.005) == 1 by {
      assert 0.005 * 100.0 + 0.5 == 1.0;
    }
    assert Orders.RoundSen(3.0 * 0.005) == 2 by {
      assert 3.0 * 0.005 * 100.0 + 0.5 == 2.0;
    }
  }
}
