/** RenderPDF of api/internal/orders/invoice.go: the lines of an invoice, and
    what a reader of the file sees of its columns. Dates and identifiers arrive
    already formatted; amounts are in sen, as NUMERIC(12,2) stores them. */
module InvoiceLines {
  import opened Text
  import opened InvoicePdf
  import opened PdfReader

  datatype Item = Item(productName: string, sku: string, quantity: nat, unitPrice: nat, lineTotal: nat)

  datatype Address = Address(mailingAddr: string, mailingAddr2: string, city: string, postcode: string, state: string)

  datatype Invoice = Invoice(
    storeName: string, sellerName: string, id: string, status: string, created: string, expires: string,
    fullName: string, email: string, contactNo: string, address: Address, items: seq<Item>,
    totalPrice: nat, notes: string)

  function Ellipsis(): string { [0xE2 as char, 0x80 as char, 0xA6 as char] }

  /** Cuts bytes, not runes, so it may leave half a rune before the ellipsis. */
  function Truncate(s: string, n: nat): string
    requires n > 0
  {
    if |s| > n then s[..n - 1] + Ellipsis() else s
  }

  /** `%-<width>s`: pads with blanks, counting runes. */
  function PadRight(s: string, width: nat): string {
    if |Fold(s)| < width then s + Repeat(' ', width - |Fold(s)|) else s
  }

  /** `%.2f` of an amount in sen. */
  function Amount(sen: nat): string {
    Dec(sen / 100) + "." + ZeroPadded(sen % 100, 2)
  }

  function ItemName(it: Item): string {
    if it.productName == "" then it.sku else it.productName
  }

  function NameColumn(it: Item): string {
    PadRight(Truncate(ItemName(it), 30), 30)
  }

  function ItemLine(it: Item): string {
    NameColumn(it) + (" " + PadLeft(Dec(it.quantity), 5, ' ') + " " + PadLeft(Amount(it.unitPrice), 12, ' ')
                      + " " + PadLeft(Amount(it.lineTotal), 12, ' '))
  }

  function Contact(email: string, phone: string): string {
    "Email: " + email + "   Phone: " + phone
  }

  function ShipTo(a: Address): string {
    "Ship to: " + a.mailingAddr + " " + a.mailingAddr2 + ", " + a.postcode + " " + a.city + " " + a.state
  }

  function TableHead(): string {
    PadRight("Item", 30) + " " + PadLeft("Qty", 5, ' ') + " " + PadLeft("Unit", 12, ' ') + " "
    + PadLeft("Total", 12, ' ')
  }

  function Rule(): string {
    Repeat('-', 62)
  }

  function Labelled(caption: string, field: string): string {
    caption + field
  }

  function Header(inv: Invoice): (r: seq<string>)
    ensures |r| == 14
  {
    ["INVOICE", if inv.storeName == "" then inv.sellerName else inv.storeName, "",
     Labelled("Invoice ID: ", inv.id), Labelled("Status: ", inv.status), Labelled("Date: ", inv.created),
     Labelled("Due (expires): ", inv.expires), "",
     Labelled("Bill to: ", inv.fullName), Contact(inv.email, inv.contactNo), ShipTo(inv.address), "",
     TableHead(), Rule()]
  }

  function TotalLine(sen: nat): string {
    PadRight("TOTAL (MYR)", 48) + " " + PadLeft(Amount(sen), 12, ' ')
  }

  function Footer(inv: Invoice): seq<string> {
    [Rule(), TotalLine(inv.totalPrice)]
    + if inv.notes == "" then [] else ["", Labelled("Notes: ", Truncate(inv.notes, 80))]
  }

  function ItemLines(items: seq<Item>): seq<string> {
    if items == [] then [] else ItemLines(items[..|items| - 1]) + [ItemLine(items[|items| - 1])]
  }

  function Lines(inv: Invoice): seq<string> {
    Header(inv) + ItemLines(inv.items) + Footer(inv)
  }

  method RenderPDF(inv: Invoice) returns (pdf: string)
    ensures pdf == Layout(Objects(Lines(inv)))
  {
    hide Header, Footer, ItemLine, Layout, Objects;
    var lines := Header(inv);
    for i := 0 to |inv.items|
      invariant lines == Header(inv) + ItemLines(inv.items[..i])
    {
      assert inv.items[..i + 1][..i] == inv.items[..i];
      lines := lines + [ItemLine(inv.items[i])];
    }
    assert inv.items[..|inv.items|] == inv.items;
    lines := lines + Footer(inv);
    pdf := BuildPDF(lines);
  }

  lemma {:induction false} ItemLineAt(items: seq<Item>, k: nat)
    requires k < |items|
    ensures |ItemLines(items)| == |items| && ItemLines(items)[k] == ItemLine(items[k])
  {
    hide ItemLine;
    var n := |items| - 1;
    if k < n {
      ItemLineAt(items[..n], k);
    } else if n > 0 {
      ItemLineAt(items[..n], 0);
    }
  }

  lemma BlanksFold(n: nat)
    ensures Fold(Repeat(' ', n)) == Repeat(' ', n)
  {
    FoldAscii(Repeat(' ', n));
  }

  lemma EllipsisFolds()
    ensures Fold(Ellipsis()) == "?"
  {
    assert RuneLen(Ellipsis()) == 3;
  }

  /** Truncation leaves at most n runes, even when it cuts through one. */
  lemma TruncateWidth(s: string, n: nat)
    requires n > 0
    ensures |Fold(Truncate(s, n))| <= n
  {
    if |s| > n {
      FoldConcat(s[..n - 1], Ellipsis());
      EllipsisFolds();
    }
  }

  /** The name column is 30 characters wide for every byte string. */
  lemma NameColumnWidth(it: Item)
    ensures |Fold(NameColumn(it))| == 30
  {
    var t := Truncate(ItemName(it), 30);
    TruncateWidth(ItemName(it), 30);
    BlanksFold(30 - |Fold(t)|);
    FoldConcat(t, Repeat(' ', 30 - |Fold(t)|));
  }

  // ---- what end-of-line normalisation does to a column ----

  predicate HasCrLf(s: string) {
    exists i :: 0 <= i < |s| - 1 && s[i] == '\r' && s[i + 1] == '\n'
  }

  /** Only CR LF pairs make a text shorter. */
  lemma {:induction false} NormalisedWidth(s: string)
    ensures |NormaliseEol(s)| == |s| <==> !HasCrLf(s)
    decreases |s|
  {
    if s != [] {
      if s[0] == '\r' && |s| >= 2 && s[1] == '\n' {
        assert |NormaliseEol(s[2..])| <= |s| - 2;
      } else {
        NormalisedWidth(s[1..]);
        var t := s[1..];
        if HasCrLf(t) {
          var i :| 0 <= i < |t| - 1 && t[i] == '\r' && t[i + 1] == '\n';
          assert s[i + 1] == '\r' && s[i + 1 + 1] == '\n';
        }
        if HasCrLf(s) {
          var i :| 0 <= i < |s| - 1 && s[i] == '\r' && s[i + 1] == '\n';
          assert t[i - 1] == '\r' && t[i - 1 + 1] == '\n';
        }
      }
    }
  }

  lemma NormalisePair(t: string)
    ensures NormaliseEol("\r\n" + t) == "\n" + NormaliseEol(t)
  {
    assert ("\r\n" + t)[2..] == t;
  }

  lemma NormaliseOne(c: char, t: string)
    requires !(c == '\r' && t != [] && t[0] == '\n')
    ensures NormaliseEol([c] + t) == [if c == '\r' then '\n' else c] + NormaliseEol(t)
  {
    assert ([c] + t)[1..] == t;
  }

  lemma ConcatPair(t: string, b: string)
    requires NormaliseEol(t + b) == NormaliseEol(t) + NormaliseEol(b)
    ensures NormaliseEol(("\r\n" + t) + b) == NormaliseEol("\r\n" + t) + NormaliseEol(b)
  {
    hide NormaliseEol;
    NormalisePair(t);
    NormalisePair(t + b);
    Assoc("\r\n", t, b);
    Assoc("\n", NormaliseEol(t), NormaliseEol(b));
  }

  lemma ConcatOne(c: char, t: string, b: string)
    requires NormaliseEol(t + b) == NormaliseEol(t) + NormaliseEol(b)
    requires !(c == '\r' && t != [] && t[0] == '\n') && !(c == '\r' && t + b != [] && (t + b)[0] == '\n')
    ensures NormaliseEol(([c] + t) + b) == NormaliseEol([c] + t) + NormaliseEol(b)
  {
    hide NormaliseEol;
    NormaliseOne(c, t);
    NormaliseOne(c, t + b);
    Assoc([c], t, b);
    Assoc([if c == '\r' then '\n' else c], NormaliseEol(t), NormaliseEol(b));
  }

  lemma {:induction false} NormaliseConcat(a: string, b: string)
    requires b == [] || b[0] != '\n'
    ensures NormaliseEol(a + b) == NormaliseEol(a) + NormaliseEol(b)
    decreases |a|
  {
    assert NormaliseEol([]) == [];
    hide NormaliseEol;
    if a == [] {
      assert a + b == b;
    } else if a[0] == '\r' && |a| >= 2 && a[1] == '\n' {
      NormaliseConcat(a[2..], b);
      ConcatPair(a[2..], b);
      assert a == "\r\n" + a[2..];
    } else {
      NormaliseConcat(a[1..], b);
      ConcatOne(a[0], a[1..], b);
      assert a == [a[0]] + a[1..];
    }
  }

  /** Every item line of the file, read back, starts with the name column and a
      blank; the reader sees the column 30 wide exactly when the bytes kept of the
      name hold no CR LF pair. */
  lemma ItemNameRead(inv: Invoice, k: nat)
    requires k < |inv.items|
    ensures var page := ReadPage(Layout(Objects(Lines(inv))));
            var column := Fold(NameColumn(inv.items[k]));
            |column| == 30
            && page.Some? && 14 + k < |page.value|
            && HasPrefix(page.value[14 + k], NormaliseEol(column) + " ")
            && (|NormaliseEol(column)| == 30 <==> !HasCrLf(Truncate(ItemName(inv.items[k]), 30)))
  {
    hide ReadPage, Layout, Objects, NameColumn, Truncate;
    var lines, it := Lines(inv), inv.items[k];
    PageRoundTrip(lines);
    ItemLineAt(inv.items, k);
    assert lines[14 + k] == ItemLine(it);
    NameColumnWidth(it);
    NormalisedWidth(Fold(NameColumn(it)));
    ColumnPairs(it);
    ItemLineSplit(it);
  }

  /** A name with a CR LF pair among its first 29 bytes makes the reader see a
      column narrower than 30. */
  lemma CrLfNarrows(it: Item, at: nat)
    requires at + 1 < |ItemName(it)| && at + 1 < 29 && ItemName(it)[at] == '\r' && ItemName(it)[at + 1] == '\n'
    ensures |NormaliseEol(Fold(NameColumn(it)))| < 30
  {
    var c := NameColumn(it);
    assert c[at] == '\r' && c[at + 1] == '\n';
    FoldKeepsPair(c, at);
    NameColumnWidth(it);
    NormalisedWidth(Fold(c));
  }

  /** The folded column has a CR LF pair exactly when the kept bytes have one. */
  lemma ColumnPairs(it: Item)
    ensures HasCrLf(Fold(NameColumn(it))) <==> HasCrLf(Truncate(ItemName(it), 30))
  {
    var t, c := Truncate(ItemName(it), 30), NameColumn(it);
    hide Truncate, ItemName, Fold, HasCrLf;
    FoldPairs(c);
    PaddingAddsNoPair(t, 30 - |Fold(t)|);
  }

  lemma PaddingAddsNoPair(t: string, n: int)
    ensures HasCrLf(if n > 0 then t + Repeat(' ', n) else t) <==> HasCrLf(t)
  {
    if n > 0 {
      var c := t + Repeat(' ', n);
      assert forall i :: 0 <= i < |t| ==> c[i] == t[i];
      assert forall i :: |t| <= i < |c| ==> c[i] == ' ';
    }
  }

  /** Folding keeps CR LF pairs and makes none. */
  lemma FoldPairs(s: string)
    ensures HasCrLf(Fold(s)) <==> HasCrLf(s)
  {
    if HasCrLf(s) {
      var at :| 0 <= at < |s| - 1 && s[at] == '\r' && s[at + 1] == '\n';
      FoldKeepsPair(s, at);
    }
    if HasCrLf(Fold(s)) { FoldMakesNoPair(s); }
  }

  lemma {:induction false} FoldMakesNoPair(s: string)
    requires HasCrLf(Fold(s))
    ensures HasCrLf(s)
    decreases |s|
  {
    var n := RuneLen(s);
    var u := s[n..];
    var t := Fold(u);
    var i :| 0 <= i < |Fold(s)| - 1 && Fold(s)[i] == '\r' && Fold(s)[i + 1] == '\n';
    if i == 0 {
      assert n == 1 && u != [] && t[0] == '\n' && u[0] == '\n';
      assert s[0] == '\r' && s[0 + 1] == '\n';
    } else {
      assert t[i - 1] == '\r' && t[i - 1 + 1] == '\n';
      FoldMakesNoPair(u);
      var j :| 0 <= j < |u| - 1 && u[j] == '\r' && u[j + 1] == '\n';
      assert s[n + j] == '\r' && s[n + j + 1] == '\n';
    }
  }

  /** ASCII bytes survive folding next to each other. */
  lemma {:induction false} FoldKeepsPair(s: string, at: nat)
    requires at + 1 < |s| && s[at] == '\r' && s[at + 1] == '\n'
    ensures HasCrLf(Fold(s))
    decreases |s|
  {
    var n := RuneLen(s);
    var t := Fold(s[n..]);
    if at == 0 {
      assert n == 1 && s[1..] != [] && t[0] == '\n';
      assert Fold(s)[0] == '\r' && Fold(s)[0 + 1] == '\n';
    } else {
      assert !Continuation(s[at]);
      FoldKeepsPair(s[n..], at - n);
      var i :| 0 <= i < |t| - 1 && t[i] == '\r' && t[i + 1] == '\n';
      assert Fold(s)[i + 1] == '\r' && Fold(s)[i + 1 + 1] == '\n';
    }
  }

  lemma ItemLineSplit(it: Item)
    ensures HasPrefix(Shown(ItemLine(it)), NormaliseEol(Fold(NameColumn(it))) + " ")
  {
    hide NameColumn, Amount, PadLeft;
    var c := NameColumn(it);
    var rest := PadLeft(Dec(it.quantity), 5, ' ') + " " + PadLeft(Amount(it.unitPrice), 12, ' ')
                + " " + PadLeft(Amount(it.lineTotal), 12, ' ');
    var r := " " + rest;
    assert ItemLine(it) == c + r;
    FoldConcat(c, r);
    assert r[0] == ' ' && r[1..] == rest;
    assert Fold(r) == " " + Fold(rest);
    NormaliseConcat(Fold(c), Fold(r));
    assert (" " + Fold(rest))[1..] == Fold(rest);
    assert NormaliseEol(Fold(r)) == " " + NormaliseEol(Fold(rest));
  }
}
