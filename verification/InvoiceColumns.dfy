/** What an invoice of api/internal/orders/invoice.go tells a reader of the file:
    every column and every labelled line is read back from the bytes. */
module InvoiceColumns {
  import opened Text
  import opened InvoicePdf
  import opened PdfReader
  import opened InvoiceLines

  // ---- reading columns, from the right ----

  /** The text before the last blank, and the word after it. */
  function CutLast(s: string): (string, string) {
    if s == [] then ([], [])
    else
      var n := |s| - 1;
      if s[n] == ' ' then (s[..n], [])
      else
        var r := CutLast(s[..n]);
        (r.0, r.1 + [s[n]])
  }

  function TrimRight(s: string): string {
    if s != [] && s[|s| - 1] == ' ' then TrimRight(s[..|s| - 1]) else s
  }

  function ReadNumber(s: string): Option<nat> {
    if s != [] && AllDigits(s) then Some(Value(s)) else None
  }

  /** An amount in sen: the digits before the dot and the two digits after it. */
  function ReadSen(s: string): Option<nat> {
    var n := |s| - 3;
    if n < 1 || s[n] != '.' || !AllDigits(s[..n]) || !AllDigits(s[n + 1..]) then None
    else Some(100 * Value(s[..n]) + Value(s[n + 1..]))
  }

  datatype Row = Row(quantity: nat, unit: nat, total: nat)

  /** The last three columns of a line, as texts. */
  function LastThree(line: string): (string, string, string) {
    var total := CutLast(line);
    var unit := CutLast(TrimRight(total.0));
    var quantity := CutLast(TrimRight(unit.0));
    (quantity.1, unit.1, total.1)
  }

  /** The last three columns of a line, as a quantity and two amounts. */
  function ReadRow(line: string): Option<Row> {
    var (quantity, unit, total) := LastThree(line);
    match (ReadNumber(quantity), ReadSen(unit), ReadSen(total))
    case (Some(q), Some(u), Some(t)) => Some(Row(q, u, t))
    case _ => None
  }

  lemma {:induction false} CutLastWord(c: string, x: string)
    requires ' ' !in x
    ensures CutLast(c + ([' '] + x)) == (c, x)
    decreases |x|
  {
    var s := c + ([' '] + x);
    if x == [] {
      assert s[..|s| - 1] == c;
    } else {
      var front := x[..|x| - 1];
      assert s[..|s| - 1] == c + ([' '] + front);
      CutLastWord(c, front);
      assert front + [x[|x| - 1]] == x;
    }
  }

  predicate NoBlankLast(c: string) {
    c == [] || c[|c| - 1] != ' '
  }

  lemma {:induction false} TrimBlanks(c: string, n: nat)
    requires NoBlankLast(c)
    ensures TrimRight(c + Repeat(' ', n)) == c
  {
    var s := c + Repeat(' ', n);
    if n == 0 {
      assert s == c;
    } else {
      assert s[..|s| - 1] == c + Repeat(' ', n - 1);
      TrimBlanks(c, n - 1);
    }
  }

  lemma BlankMoves(c: string, n: nat, x: string)
    ensures c + (" " + (Repeat(' ', n) + x)) == (c + Repeat(' ', n)) + ([' '] + x)
  {
    assert " " + Repeat(' ', n) == Repeat(' ', n) + [' '];
    Assoc(" ", Repeat(' ', n), x);
    Assoc(Repeat(' ', n), [' '], x);
    Assoc(c, Repeat(' ', n), [' '] + x);
  }

  /** A right-aligned column is cut off whatever stands before it. */
  lemma ColumnRead(c: string, x: string, width: nat)
    requires ' ' !in x
    ensures var r := CutLast(c + (" " + PadLeft(x, width, ' ')));
            r.1 == x && (NoBlankLast(c) ==> TrimRight(r.0) == c)
  {
    var n := if |x| < width then width - |x| else 0;
    assert Repeat(' ', 0) + x == x;
    assert PadLeft(x, width, ' ') == Repeat(' ', n) + x;
    BlankMoves(c, n, x);
    hide CutLast, TrimRight, PadLeft;
    CutLastWord(c + Repeat(' ', n), x);
    if NoBlankLast(c) { TrimBlanks(c, n); }
  }

  /** Digits and dots only: neither blanks nor bytes that a reader changes. */
  predicate Numeric(s: string) {
    s != [] && forall i :: 0 <= i < |s| ==> IsDigit(s[i]) || s[i] == '.'
  }

  lemma TwoDigits(n: nat)
    requires n < 100
    ensures |ZeroPadded(n, 2)| == 2
  {
    assert Pow10(2) == 100 by { assert Pow10(1) == 10; }
    DecWidth(n, 2);
  }

  /** An amount as printed reads as that amount. */
  lemma AmountRead(sen: nat)
    ensures ReadSen(Amount(sen)) == Some(sen) && Numeric(Amount(sen))
  {
    var a, b := Dec(sen / 100), ZeroPadded(sen % 100, 2);
    TwoDigits(sen % 100);
    ValueOfDec(sen / 100);
    ValueOfZeroPadded(sen % 100, 2);
    AmountParts(a, b);
    hide Dec, ZeroPadded;
  }

  lemma AmountParts(a: string, b: string)
    requires a != [] && AllDigits(a) && AllDigits(b) && |b| == 2
    ensures var s := a + "." + b;
            Numeric(s) && ReadSen(s) == Some(100 * Value(a) + Value(b))
  {
    hide Value, AllDigits, Numeric, ReadSen;
    AmountNumeric(a, b);
    AmountCut(a, b);
    SenIs(a + "." + b, a, b);
  }

  lemma SenIs(s: string, a: string, b: string)
    requires a != [] && AllDigits(a) && AllDigits(b) && |b| == 2
    requires |s| == |a| + 3 && s[..|a|] == a && s[|a|] == '.' && s[|a| + 1..] == b
    ensures ReadSen(s) == Some(100 * Value(a) + Value(b))
  {
    hide Value, AllDigits;
  }

  lemma AmountNumeric(a: string, b: string)
    requires AllDigits(a) && AllDigits(b)
    ensures Numeric(a + "." + b)
  {
    assert forall i :: 0 <= i < |a| ==> IsDigit(a[i]);
    assert forall i :: 0 <= i < |b| ==> IsDigit(b[i]);
  }

  lemma AmountCut(a: string, b: string)
    ensures var s := a + "." + b;
            |s| == |a| + 1 + |b| && s[..|a|] == a && s[|a|] == '.' && s[|a| + 1..] == b
  {
  }

  // ---- what a reader shows of plain text ----

  /** Bytes that neither folding nor reading changes. */
  predicate PlainText(s: string) {
    forall i :: 0 <= i < |s| ==> 32 <= s[i] as int < 127
  }

  lemma {:induction false} PlainFold(p: string, s: string)
    requires PlainText(p)
    ensures Fold(p + s) == p + Fold(s)
  {
    if p == [] {
      assert p + s == s;
    } else {
      assert (p + s)[0] == p[0] && (p + s)[1..] == p[1..] + s;
      PlainFold(p[1..], s);
      assert [p[0]] + (p[1..] + Fold(s)) == p + Fold(s);
    }
  }

  lemma {:induction false} PlainNormalise(p: string, s: string)
    requires PlainText(p)
    ensures NormaliseEol(p + s) == p + NormaliseEol(s)
  {
    if p == [] {
      assert p + s == s;
    } else {
      assert (p + s)[0] == p[0] && (p + s)[1..] == p[1..] + s;
      PlainNormalise(p[1..], s);
      assert [p[0]] + (p[1..] + NormaliseEol(s)) == p + NormaliseEol(s);
    }
  }

  /** A plain label is shown as it is, before whatever follows. */
  lemma ShownLabel(p: string, s: string)
    requires PlainText(p)
    ensures Shown(p + s) == p + Shown(s)
  {
    PlainFold(p, s);
    PlainNormalise(p, Fold(s));
  }

  lemma ShownPlain(p: string)
    requires PlainText(p)
    ensures Shown(p) == p
  {
    ShownLabel(p, []);
    assert p + [] == p && Shown([]) == [];
  }

  /** Plain text separates what stands on its two sides. */
  lemma ShownBetween(s: string, p: string, t: string)
    requires PlainText(p) && p != []
    ensures Shown(s + (p + t)) == Shown(s) + (p + Shown(t))
  {
    assert (p + t)[0] == p[0];
    FoldConcat(s, p + t);
    PlainFold(p, t);
    assert (p + Fold(t))[0] == p[0];
    NormaliseConcat(Fold(s), p + Fold(t));
    PlainNormalise(p, Fold(t));
  }

  // ---- the item lines ----

  /** The three numbers of an item line, right-aligned. */
  function Numbers(q: string, u: string, t: string): string {
    " " + PadLeft(q, 5, ' ') + (" " + PadLeft(u, 12, ' ') + (" " + PadLeft(t, 12, ' ')))
  }

  lemma ItemLineNumbers(it: Item)
    ensures ItemLine(it) == NameColumn(it) + Numbers(Dec(it.quantity), Amount(it.unitPrice), Amount(it.lineTotal))
  {
    hide NameColumn, PadLeft, Dec, Amount;
    var q, u, t := PadLeft(Dec(it.quantity), 5, ' '), PadLeft(Amount(it.unitPrice), 12, ' '),
                   PadLeft(Amount(it.lineTotal), 12, ' ');
    FiveParts(q, u, t);
  }

  lemma FiveParts(q: string, u: string, t: string)
    ensures " " + q + " " + u + " " + t == " " + q + (" " + u + (" " + t))
  {
    Assoc(" " + q, " ", u);
    Assoc(" " + q + (" " + u), " ", t);
    Assoc(" " + q, " " + u, " " + t);
  }

  lemma NumericPadded(x: string, width: nat)
    requires Numeric(x)
    ensures PlainText(PadLeft(x, width, ' ')) && NoBlankLast(PadLeft(x, width, ' ')) && ' ' !in x
    ensures PadLeft(x, width, ' ') != []
  {
  }

  lemma NumbersPlain(q: string, u: string, t: string)
    requires Numeric(q) && Numeric(u) && Numeric(t)
    ensures PlainText(Numbers(q, u, t))
  {
    NumericPadded(q, 5);
    NumericPadded(u, 12);
    NumericPadded(t, 12);
    hide PadLeft, Numeric;
  }

  predicate Word(x: string) {
    x != [] && PlainText(x) && ' ' !in x
  }

  lemma PaddedWord(x: string, width: nat)
    requires Word(x)
    ensures PadLeft(x, width, ' ') != [] && NoBlankLast(PadLeft(x, width, ' ')) && PlainText(PadLeft(x, width, ' '))
  {
  }

  /** The last three columns are read back, whatever stands before them. */
  lemma ThreeRead(c: string, q: string, u: string, t: string)
    requires Word(q) && Word(u) && Word(t)
    ensures LastThree(c + Numbers(q, u, t)) == (q, u, t)
  {
    PaddedWord(q, 5);
    PaddedWord(u, 12);
    hide PadLeft, PlainText, CutLast, TrimRight;
    var a, b, d := " " + PadLeft(q, 5, ' '), " " + PadLeft(u, 12, ' '), " " + PadLeft(t, 12, ' ');
    Assoc(a, b, d);
    Assoc(c, a + b, d);
    Assoc(c, a, b);
    assert (c + a + b)[|c + a + b| - 1] == PadLeft(u, 12, ' ')[|PadLeft(u, 12, ' ')| - 1];
    assert (c + a)[|c + a| - 1] == PadLeft(q, 5, ' ')[|PadLeft(q, 5, ' ')| - 1];
    ColumnRead(c + a + b, t, 12);
    ColumnRead(c + a, u, 12);
    ColumnRead(c, q, 5);
  }

  lemma NumbersRead(c: string, q: string, u: string, t: string)
    requires Numeric(q) && Numeric(u) && Numeric(t)
    requires AllDigits(q) && ReadSen(u).Some? && ReadSen(t).Some?
    ensures ReadRow(c + Numbers(q, u, t)) == Some(Row(Value(q), ReadSen(u).value, ReadSen(t).value))
  {
    hide LastThree, ReadSen, Numbers, Word, AllDigits, Value;
    NumericWord(q);
    NumericWord(u);
    NumericWord(t);
    ThreeRead(c, q, u, t);
    assert ReadNumber(q) == Some(Value(q));
  }

  lemma NumericWord(x: string)
    requires Numeric(x)
    ensures Word(x)
  {
  }

  lemma ItemRowShown(it: Item)
    ensures var column := NormaliseEol(Fold(NameColumn(it)));
            HasPrefix(Shown(ItemLine(it)), column)
            && ReadRow(Shown(ItemLine(it))) == Some(Row(it.quantity, it.unitPrice, it.lineTotal))
  {
    var q, u, t := Dec(it.quantity), Amount(it.unitPrice), Amount(it.lineTotal);
    ItemLineNumbers(it);
    AmountRead(it.unitPrice);
    AmountRead(it.lineTotal);
    ValueOfDec(it.quantity);
    assert Numeric(q);
    hide NameColumn, ItemLine, Amount, Dec, Numeric, ReadSen, ReadRow;
    var ns := Numbers(q, u, t);
    NumbersPlain(q, u, t);
    assert ns != [] && ns + [] == ns && Shown([]) == [];
    hide Numbers;
    ShownBetween(NameColumn(it), ns, []);
    hide Shown;
    NumbersRead(Shown(NameColumn(it)), q, u, t);
    PrefixOfConcat(Shown(NameColumn(it)), ns);
    ShownIs(NameColumn(it));
  }

  lemma ShownIs(s: string)
    ensures Shown(s) == NormaliseEol(Fold(s))
  {
  }

  // ---- main results: the page of an invoice ----

  function PageOf(inv: Invoice): Option<seq<string>> {
    ReadPage(Layout(Objects(Lines(inv))))
  }

  lemma PageLines(inv: Invoice)
    ensures PageOf(inv).Some? && |PageOf(inv).value| == |Lines(inv)|
    ensures forall i :: 0 <= i < |Lines(inv)| ==> PageOf(inv).value[i] == Shown(Lines(inv)[i])
  {
    hide ReadPage, Layout, Objects, Lines, Shown;
    PageRoundTrip(Lines(inv));
  }

  lemma {:induction false} ItemLinesCount(items: seq<Item>)
    ensures |ItemLines(items)| == |items|
  {
    hide ItemLine;
    if items != [] { ItemLinesCount(items[..|items| - 1]); }
  }

  /** Every item has its line, whose last three columns read as its quantity, its
      unit price and its line total, in this order, for every name. */
  lemma ItemRowRead(inv: Invoice, k: nat)
    requires k < |inv.items|
    ensures PageOf(inv).Some? && 14 + k < |PageOf(inv).value|
    ensures var it := inv.items[k];
            ReadRow(PageOf(inv).value[14 + k]) == Some(Row(it.quantity, it.unitPrice, it.lineTotal))
  {
    hide PageOf, ItemLine, Lines, ReadRow, Shown;
    ItemPageLine(inv, k);
    ItemRowShown(inv.items[k]);
  }

  lemma ItemPageLine(inv: Invoice, k: nat)
    requires k < |inv.items|
    ensures PageOf(inv).Some? && 14 + k < |PageOf(inv).value|
    ensures PageOf(inv).value[14 + k] == Shown(ItemLine(inv.items[k]))
  {
    hide PageOf, ItemLine, Header, Footer, Shown;
    PageLines(inv);
    ItemLineAt(inv.items, k);
    assert Lines(inv)[14 + k] == ItemLine(inv.items[k]);
  }

  /** The line starts with the product's name, or the SKU of an item without one,
      cut to 29 bytes and an ellipsis when it is longer than 30. */
  lemma ItemNameShown(inv: Invoice, k: nat)
    requires k < |inv.items|
    ensures PageOf(inv).Some? && 14 + k < |PageOf(inv).value|
    ensures var it := inv.items[k];
            var name := if it.productName != "" then it.productName else it.sku;
            var kept := if |name| <= 30 then name else name[..29] + [0xE2 as char, 0x80 as char, 0xA6 as char];
            HasPrefix(PageOf(inv).value[14 + k], NormaliseEol(Fold(kept)))
  {
    hide PageOf, ItemLine, Lines, ReadRow, Shown, NameColumn, Truncate, ItemName, HasPrefix;
    ItemPageLine(inv, k);
    ItemRowShown(inv.items[k]);
    NameStarts(inv.items[k]);
    KeptName(inv.items[k]);
    PrefixOn(Shown(ItemLine(inv.items[k])), NormaliseEol(Fold(NameColumn(inv.items[k]))),
             NormaliseEol(Fold(Truncate(ItemName(inv.items[k]), 30))));
  }

  lemma KeptName(it: Item)
    ensures var name := if it.productName != "" then it.productName else it.sku;
            Truncate(ItemName(it), 30) ==
            if |name| <= 30 then name else name[..29] + [0xE2 as char, 0x80 as char, 0xA6 as char]
  {
  }

  lemma PrefixOn(s: string, u: string, p: string)
    requires HasPrefix(s, u) && HasPrefix(u, p)
    ensures HasPrefix(s, p)
  {
  }

  lemma NameStarts(it: Item)
    ensures HasPrefix(NormaliseEol(Fold(NameColumn(it))), NormaliseEol(Fold(Truncate(ItemName(it), 30))))
  {
    var t := Truncate(ItemName(it), 30);
    hide Truncate, ItemName;
    PaddedStarts(t, 30 - |Fold(t)|);
  }

  lemma PaddedStarts(t: string, n: int)
    ensures HasPrefix(NormaliseEol(Fold(if n > 0 then t + Repeat(' ', n) else t)), NormaliseEol(Fold(t)))
  {
    if n > 0 {
      var blanks := Repeat(' ', n);
      assert blanks + [] == blanks;
      ShownBetween(t, blanks, []);
      PrefixOfConcat(Shown(t), blanks + Shown([]));
    }
  }

  /** The lines of an invoice: 14 before the items, then a rule and the total, and
      two more when there are notes. */
  lemma LinesAt(inv: Invoice)
    ensures var n := 14 + |inv.items|;
            && |Lines(inv)| == n + |Footer(inv)|
            && (forall i :: 0 <= i < 14 ==> Lines(inv)[i] == Header(inv)[i])
            && (forall i :: 0 <= i < |Footer(inv)| ==> Lines(inv)[n + i] == Footer(inv)[i])
  {
    hide Header, Footer, ItemLines;
    ItemLinesCount(inv.items);
  }

  lemma FooterParts(inv: Invoice)
    ensures var f := Footer(inv);
            && |f| == (if inv.notes == "" then 2 else 4) && f[0] == Rule() && f[1] == TotalLine(inv.totalPrice)
            && (inv.notes != "" ==> f[3] == Labelled("Notes: ", Truncate(inv.notes, 80)))
  {
    hide Rule, TotalLine, Labelled, Truncate;
  }

  /** Behind the items a rule, then the total. */
  lemma TotalRead(inv: Invoice)
    ensures PageOf(inv).Some?
    ensures var page, n := PageOf(inv).value, 14 + |inv.items|;
            && |page| == n + 2 + (if inv.notes == "" then 0 else 2)
            && page[n] == Repeat('-', 62)
            && HasPrefix(page[n + 1], "TOTAL (MYR)") && ReadSen(CutLast(page[n + 1]).1) == Some(inv.totalPrice)
  {
    hide PageOf, Header, Footer, ItemLines, Lines, Shown, TotalLine, HasPrefix, CutLast, ReadSen, Rule;
    RuleShown();
    PageLines(inv);
    LinesAt(inv);
    FooterParts(inv);
    var n := 14 + |inv.items|;
    assert Lines(inv)[n + 0] == Rule();
    TotalShown(inv.totalPrice);
  }

  lemma RuleShown()
    ensures Shown(Rule()) == Repeat('-', 62)
  {
    ShownPlain(Rule());
  }

  lemma TotalShown(sen: nat)
    ensures var line := Shown(TotalLine(sen));
            HasPrefix(line, "TOTAL (MYR)") && ReadSen(CutLast(line).1) == Some(sen)
  {
    var front, x := "TOTAL (MYR)" + Repeat(' ', 37), Amount(sen);
    AmountRead(sen);
    NumericPadded(x, 12);
    TotalLabel();
    hide Amount, PadLeft, PadRight, CutLast, ReadSen, Shown, Numeric;
    Assoc(front, " ", PadLeft(x, 12, ' '));
    PlainTotal(front, PadLeft(x, 12, ' '));
    ShownPlain(front + " " + PadLeft(x, 12, ' '));
    ColumnRead(front, x, 12);
    hide HasPrefix;
    Assoc("TOTAL (MYR)", Repeat(' ', 37), " " + PadLeft(x, 12, ' '));
    PrefixOfConcat("TOTAL (MYR)", Repeat(' ', 37) + (" " + PadLeft(x, 12, ' ')));
  }

  lemma PlainTotal(a: string, b: string)
    requires PlainText(a) && PlainText(b)
    ensures PlainText(a + " " + b)
  {
  }

  lemma TotalLabel()
    ensures PadRight("TOTAL (MYR)", 48) == "TOTAL (MYR)" + Repeat(' ', 37)
    ensures PlainText("TOTAL (MYR)" + Repeat(' ', 37))
  {
    var t := "TOTAL (MYR)";
    PlainCaption();
    hide PlainText;
    FoldAsciiPlain(t);
  }

  lemma PlainCaption()
    ensures var t := "TOTAL (MYR)"; PlainText(t) && PlainText(t + Repeat(' ', 37)) && |t| == 11
  {
    var t := "TOTAL (MYR)";
    assert PlainText(t);
    assert PlainText(Repeat(' ', 37));
  }

  lemma FoldAsciiPlain(t: string)
    requires PlainText(t)
    ensures Fold(t) == t
  {
    FoldAscii(t);
  }

  /** Notes come last, cut like a name but at 80. */
  lemma NotesRead(inv: Invoice)
    requires inv.notes != ""
    ensures PageOf(inv).Some? && |PageOf(inv).value| == 18 + |inv.items|
    ensures var kept := if |inv.notes| <= 80 then inv.notes
                        else inv.notes[..79] + [0xE2 as char, 0x80 as char, 0xA6 as char];
            PageOf(inv).value[17 + |inv.items|] == "Notes: " + Shown(kept)
  {
    hide PageOf, Header, Footer, ItemLines, Lines, Shown, Labelled, Truncate;
    PageLines(inv);
    LinesAt(inv);
    FooterParts(inv);
    NotesShown(inv.notes);
    assert Lines(inv)[14 + |inv.items| + 3] == Footer(inv)[3];
  }

  lemma NotesShown(notes: string)
    ensures var kept := if |notes| <= 80 then notes else notes[..79] + [0xE2 as char, 0x80 as char, 0xA6 as char];
            Shown(Labelled("Notes: ", Truncate(notes, 80))) == "Notes: " + Shown(kept)
  {
    hide Shown, Labelled;
    LabelledShown("Notes: ", Truncate(notes, 80));
  }

  lemma HeaderParts(inv: Invoice)
    ensures var h := Header(inv);
            && h[0] == "INVOICE" && h[1] == (if inv.storeName != "" then inv.storeName else inv.sellerName)
            && h[3] == Labelled("Invoice ID: ", inv.id) && h[4] == Labelled("Status: ", inv.status)
            && h[5] == Labelled("Date: ", inv.created) && h[6] == Labelled("Due (expires): ", inv.expires)
            && h[8] == Labelled("Bill to: ", inv.fullName) && h[9] == Contact(inv.email, inv.contactNo)
            && h[10] == ShipTo(inv.address)
  {
    hide Labelled, Contact, ShipTo, TableHead, Rule;
  }

  lemma LabelledShown(caption: string, field: string)
    requires PlainText(caption)
    ensures Shown(Labelled(caption, field)) == caption + Shown(field)
  {
    hide Shown;
    ShownLabel(caption, field);
  }

  /** Each labelled line carries its own field, as a reader shows it. */
  lemma HeaderRead(inv: Invoice)
    ensures PageOf(inv).Some? && |PageOf(inv).value| >= 14
    ensures var page := PageOf(inv).value;
            && page[0] == "INVOICE"
            && page[1] == Shown(if inv.storeName != "" then inv.storeName else inv.sellerName)
            && page[3] == "Invoice ID: " + Shown(inv.id)
            && page[4] == "Status: " + Shown(inv.status)
            && page[5] == "Date: " + Shown(inv.created)
            && page[6] == "Due (expires): " + Shown(inv.expires)
            && page[8] == "Bill to: " + Shown(inv.fullName)
            && page[9] == "Email: " + (Shown(inv.email) + ("   Phone: " + Shown(inv.contactNo)))
  {
    hide PageOf, Header, Footer, ItemLines, Lines, Shown, Labelled, Contact, ShipTo;
    PageLines(inv);
    LinesAt(inv);
    HeaderParts(inv);
    CaptionsShown(inv);
    EmailShown(inv.email, inv.contactNo);
  }

  lemma HeadText()
    ensures var c := PadRight("Item", 30);
            TableHead() == c + Numbers("Qty", "Unit", "Total") && HasPrefix(c, "Item") && PlainText(c) && |c| == 30
  {
    FoldAsciiPlain("Item");
    assert PlainText(Repeat(' ', 26));
    PrefixOfConcat("Item", Repeat(' ', 26));
    hide PadLeft;
    var q, u, t := PadLeft("Qty", 5, ' '), PadLeft("Unit", 12, ' '), PadLeft("Total", 12, ' ');
    FiveParts(q, u, t);
    HeadAssoc(PadRight("Item", 30), q, u, t);
  }

  lemma HeadAssoc(c: string, q: string, u: string, t: string)
    ensures c + " " + q + " " + u + " " + t == c + (" " + q + " " + u + " " + t)
  {
    Assoc(c, " ", q);
    Assoc(c, " " + q, " ");
    Assoc(c, " " + q + " ", u);
    Assoc(c, " " + q + " " + u, " ");
    Assoc(c, " " + q + " " + u + " ", t);
  }

  /** The headings, in the order of the columns, over a rule. */
  lemma HeadingsRead(inv: Invoice)
    ensures PageOf(inv).Some? && |PageOf(inv).value| >= 14
    ensures var page := PageOf(inv).value;
            && page[2] == page[7] == page[11] == "" && page[13] == Repeat('-', 62)
            && HasPrefix(page[12], "Item") && LastThree(page[12]) == ("Qty", "Unit", "Total") && |page[12]| == 62
  {
    hide PageOf, Footer, ItemLines, Lines, Shown, Labelled, Contact, ShipTo, TableHead, Rule, LastThree;
    PageLines(inv);
    LinesAt(inv);
    assert Header(inv)[12] == TableHead() && Header(inv)[13] == Rule();
    assert Header(inv)[2] == Header(inv)[7] == Header(inv)[11] == "";
    hide Header;
    RuleShown();
    HeadShown();
    ShownPlain("");
  }

  lemma HeadShown()
    ensures var line := Shown(TableHead());
            HasPrefix(line, "Item") && LastThree(line) == ("Qty", "Unit", "Total") && |line| == 62
  {
    HeadText();
    var c := PadRight("Item", 30);
    assert Word("Qty") && Word("Unit") && Word("Total");
    HeadPlain(c);
    hide PadRight, TableHead, LastThree, Shown, Word, PlainText;
    ShownPlain(TableHead());
    ThreeRead(c, "Qty", "Unit", "Total");
    hide Numbers;
    PrefixGrows(c, Numbers("Qty", "Unit", "Total"), "Item");
  }

  lemma HeadPlain(c: string)
    requires PlainText(c) && |c| == 30
    ensures var line := c + Numbers("Qty", "Unit", "Total"); PlainText(line) && |line| == 62
  {
    assert Word("Qty") && Word("Unit") && Word("Total");
    PaddedWord("Qty", 5);
    PaddedWord("Unit", 12);
    PaddedWord("Total", 12);
    hide Word;
  }

  lemma CaptionsShown(inv: Invoice)
    ensures Shown("INVOICE") == "INVOICE"
    ensures Shown(Labelled("Invoice ID: ", inv.id)) == "Invoice ID: " + Shown(inv.id)
    ensures Shown(Labelled("Status: ", inv.status)) == "Status: " + Shown(inv.status)
    ensures Shown(Labelled("Date: ", inv.created)) == "Date: " + Shown(inv.created)
    ensures Shown(Labelled("Due (expires): ", inv.expires)) == "Due (expires): " + Shown(inv.expires)
    ensures Shown(Labelled("Bill to: ", inv.fullName)) == "Bill to: " + Shown(inv.fullName)
  {
    hide Shown, Labelled;
    ShownPlain("INVOICE");
    LabelledShown("Invoice ID: ", inv.id);
    LabelledShown("Status: ", inv.status);
    LabelledShown("Date: ", inv.created);
    LabelledShown("Due (expires): ", inv.expires);
    LabelledShown("Bill to: ", inv.fullName);
  }

  lemma EmailShown(email: string, phone: string)
    ensures Shown(Contact(email, phone)) ==
            "Email: " + (Shown(email) + ("   Phone: " + Shown(phone)))
  {
    hide Shown;
    Assoc("Email: " + email, "   Phone: ", phone);
    Assoc("Email: ", email, "   Phone: " + phone);
    ShownLabel("Email: ", email + ("   Phone: " + phone));
    ShownBetween(email, "   Phone: ", phone);
  }

  /** The address line: its five parts in the order in which letters carry them. */
  lemma AddressRead(inv: Invoice)
    ensures PageOf(inv).Some? && |PageOf(inv).value| >= 14
    ensures var a := inv.address;
            PageOf(inv).value[10] ==
            "Ship to: " + (Shown(a.mailingAddr) + (" " + (Shown(a.mailingAddr2)
            + (", " + (Shown(a.postcode) + (" " + (Shown(a.city) + (" " + Shown(a.state)))))))))
  {
    hide PageOf, Header, Footer, ItemLines, Lines, Shown, Labelled, Contact, ShipTo;
    PageLines(inv);
    LinesAt(inv);
    HeaderParts(inv);
    AddressShown(inv.address);
  }

  lemma AddressShown(a: Address)
    ensures Shown(ShipTo(a)) ==
            "Ship to: " + (Shown(a.mailingAddr) + (" " + (Shown(a.mailingAddr2)
            + (", " + (Shown(a.postcode) + (" " + (Shown(a.city) + (" " + Shown(a.state)))))))))
  {
    hide Shown;
    var r4 := " " + a.state;
    var r3 := " " + (a.city + r4);
    var r2 := ", " + (a.postcode + r3);
    var r1 := " " + (a.mailingAddr2 + r2);
    NestAddress(a);
    hide ShipTo;
    ShownLabel("Ship to: ", a.mailingAddr + r1);
    ShownBetween(a.mailingAddr, " ", a.mailingAddr2 + r2);
    ShownBetween(a.mailingAddr2, ", ", a.postcode + r3);
    ShownBetween(a.postcode, " ", a.city + r4);
    ShownBetween(a.city, " ", a.state);
  }

  lemma NestAddress(a: Address)
    ensures ShipTo(a) == "Ship to: " + (a.mailingAddr + (" " + (a.mailingAddr2 + (", " + (a.postcode
                         + (" " + (a.city + (" " + a.state))))))))
  {
    var g := "Ship to: " + a.mailingAddr + " " + a.mailingAddr2 + ", " + a.postcode;
    Assoc(g + " " + a.city, " ", a.state);
    Assoc(g + " ", a.city, " " + a.state);
    Assoc(g, " ", a.city + (" " + a.state));
    Regroup("Ship to: ", a.mailingAddr, " ", a.mailingAddr2, ", ", a.postcode, " " + (a.city + (" " + a.state)));
    var rest := " " + (a.city + (" " + a.state));
    Assoc(", ", a.postcode, rest);
  }

  /** The columns line up under their headings unless a number is too long for
      its column: every line of the table is 62 characters wide. */
  lemma ItemRowWidth(inv: Invoice, k: nat)
    requires k < |inv.items|
    requires var it := inv.items[k];
             it.quantity < 100_000 && it.unitPrice < 100_000_000_000 && it.lineTotal < 100_000_000_000
             && !HasCrLf(Truncate(ItemName(it), 30))
    ensures PageOf(inv).Some? && 14 + k < |PageOf(inv).value| && |PageOf(inv).value[14 + k]| == 62
  {
    var it := inv.items[k];
    hide PageOf, ItemLine, Lines, Shown, NameColumn, Truncate, ItemName;
    ItemPageLine(inv, k);
    ColumnPairs(it);
    NameColumnWidth(it);
    NormalisedWidth(Fold(NameColumn(it)));
    RowWidth(it);
  }

  lemma AmountWidth(sen: nat)
    requires sen < 100_000_000_000
    ensures |Amount(sen)| <= 12
  {
    TwoDigits(sen % 100);
    assert Pow10(9) == 1_000_000_000 by { assert Pow10(5) == 100_000; }
    DecWidth(sen / 100, 9);
  }

  lemma RowWidth(it: Item)
    requires it.quantity < 100_000 && it.unitPrice < 100_000_000_000 && it.lineTotal < 100_000_000_000
    ensures |Shown(ItemLine(it))| == |NormaliseEol(Fold(NameColumn(it)))| + 32
  {
    var q, u, t := Dec(it.quantity), Amount(it.unitPrice), Amount(it.lineTotal);
    AmountWidth(it.unitPrice);
    AmountWidth(it.lineTotal);
    AmountRead(it.unitPrice);
    AmountRead(it.lineTotal);
    assert Pow10(5) == 100_000;
    DecWidth(it.quantity, 5);
    assert Numeric(q);
    ItemLineNumbers(it);
    ShownIs(NameColumn(it));
    hide NameColumn, ItemLine, Amount, Dec, Numeric, ReadSen, ReadRow;
    var ns := Numbers(q, u, t);
    NumbersPlain(q, u, t);
    assert |ns| == 32 && ns + [] == ns && Shown([]) == [];
    ShownBetween(NameColumn(it), ns, []);
  }
}
