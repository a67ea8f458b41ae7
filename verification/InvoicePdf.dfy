/** The self-contained PDF writer of api/internal/orders/invoice.go. */
module InvoicePdf {
  import opened Text

  // ---- runes: what Go's `for _, c := range s` sees in a byte string ----

  predicate Continuation(c: char) {
    0x80 <= c as int <= 0xBF
  }

  /** Bytes taken by the rune at the front of s; an invalid byte stands alone. */
  function RuneLen(s: string): (n: nat)
    requires s != []
    ensures 1 <= n <= |s|
    ensures forall i :: 1 <= i < n ==> Continuation(s[i])
    ensures s[0] as int < 128 ==> n == 1
  {
    var b := s[0] as int;
    if 0xC2 <= b <= 0xDF && |s| >= 2 && Continuation(s[1]) then 2
    else if 0xE0 <= b <= 0xEF && |s| >= 3 && Continuation(s[2])
            && (if b == 0xE0 then 0xA0 else 0x80) <= s[1] as int <= (if b == 0xED then 0x9F else 0xBF) then 3
    else if 0xF0 <= b <= 0xF4 && |s| >= 4 && Continuation(s[2]) && Continuation(s[3])
            && (if b == 0xF0 then 0x90 else 0x80) <= s[1] as int <= (if b == 0xF4 then 0x8F else 0xBF) then 4
    else 1
  }

  /** One character per rune: ASCII as it is, everything else as '?'. */
  function Fold(s: string): (t: string)
    ensures |t| <= |s|
  {
    if s == [] then []
    else [if s[0] as int < 128 then s[0] else '?'] + Fold(s[RuneLen(s)..])
  }

  lemma RuneLenConcat(a: string, b: string)
    requires a != [] && (b == [] || !Continuation(b[0]))
    ensures RuneLen(a + b) == RuneLen(a)
  {
    var s := a + b;
    assert s[0] == a[0];
    assert |a| >= 2 ==> s[1] == a[1];
    assert |a| >= 3 ==> s[2] == a[2];
    assert |a| >= 4 ==> s[3] == a[3];
    assert b != [] ==> s[|a|] == b[0];
  }

  /** Folding splits wherever the second part does not start inside a rune. */
  lemma {:induction false} FoldConcat(a: string, b: string)
    requires b == [] || !Continuation(b[0])
    ensures Fold(a + b) == Fold(a) + Fold(b)
    decreases |a|
  {
    if a == [] {
      assert a + b == b;
    } else {
      hide Fold;
      RuneLenConcat(a, b);
      var n := RuneLen(a);
      FoldConcat(a[n..], b);
      FoldStep(a);
      FoldStep(a + b);
      TailOfConcat(a, b, n);
      hide RuneLen;
      Assoc([if a[0] as int < 128 then a[0] else '?'], Fold(a[n..]), Fold(b));
    }
  }

  lemma TailOfConcat(a: string, b: string, n: nat)
    requires 0 < n <= |a|
    ensures (a + b)[n..] == a[n..] + b && (a + b)[0] == a[0]
  {
  }

  lemma FoldStep(s: string)
    requires s != []
    ensures Fold(s) == [if s[0] as int < 128 then s[0] else '?'] + Fold(s[RuneLen(s)..])
  {
  }

  lemma {:induction false} FoldAscii(s: string)
    requires forall i :: 0 <= i < |s| ==> s[i] as int < 128
    ensures Fold(s) == s
  {
    if s != [] { FoldAscii(s[1..]); }
  }

  // ---- runes are those of UTF-8 (RFC 3629, section 3) ----

  predicate CodePoint(n: nat) {
    n <= 0x10FFFF && !(0xD800 <= n <= 0xDFFF)
  }

  function Utf8(n: nat): string
    requires CodePoint(n)
  {
    if n < 0x80 then [n as char]
    else if n < 0x800 then [(0xC0 + n / 0x40) as char, (0x80 + n % 0x40) as char]
    else if n < 0x10000 then
      [(0xE0 + n / 0x1000) as char, (0x80 + n / 0x40 % 0x40) as char, (0x80 + n % 0x40) as char]
    else
      [(0xF0 + n / 0x40000) as char, (0x80 + n / 0x1000 % 0x40) as char, (0x80 + n / 0x40 % 0x40) as char,
       (0x80 + n % 0x40) as char]
  }

  /** The bytes of a code point are one rune, whatever follows: shown as itself
      when it is ASCII and as one question mark otherwise. */
  lemma RuneOfCodePoint(n: nat, rest: string)
    requires CodePoint(n)
    ensures RuneLen(Utf8(n) + rest) == |Utf8(n)|
    ensures Fold(Utf8(n) + rest) == [if n < 0x80 then n as char else '?'] + Fold(rest)
  {
    var u := Utf8(n);
    var s := u + rest;
    Utf8Ranges(n);
    hide Utf8;
    assert forall i :: 0 <= i < |u| ==> s[i] == u[i];
    assert RuneLen(s) == |u|;
    FoldStep(s);
    assert s[|u|..] == rest;
  }

  /** Which bytes a code point has. */
  lemma Utf8Ranges(n: nat)
    requires CodePoint(n)
    ensures var u := Utf8(n);
            && 1 <= |u| <= 4 && (|u| == 1 <==> n < 0x80) && (forall i :: 1 <= i < |u| ==> Continuation(u[i]))
            && (|u| == 1 ==> u[0] as int == n) && (|u| == 2 ==> 0xC2 <= u[0] as int <= 0xDF)
            && (|u| == 3 ==> 0xE0 <= u[0] as int <= 0xEF && (u[0] as int == 0xE0 ==> 0xA0 <= u[1] as int)
                             && (u[0] as int == 0xED ==> u[1] as int <= 0x9F))
            && (|u| == 4 ==> 0xF0 <= u[0] as int <= 0xF4 && (u[0] as int == 0xF0 ==> 0x90 <= u[1] as int)
                             && (u[0] as int == 0xF4 ==> u[1] as int <= 0x8F))
  {
    assert n < 0x10000 ==> n / 0x1000 <= 0xF && n / 0x40 == n / 0x1000 * 0x40 + n / 0x40 % 0x40;
    assert n / 0x1000 == n / 0x40000 * 0x40 + n / 0x1000 % 0x40;
  }

  lemma Digits64(x: nat, y: nat)
    requires y < 0x40
    ensures (x * 0x40 + y) / 0x40 == x && (x * 0x40 + y) % 0x40 == y
  {
  }

  /** Base 64, with up to four digits. */
  lemma FourDigits(x: nat, y: nat, z: nat, w: nat)
    requires y < 0x40 && z < 0x40 && w < 0x40
    ensures var n := x * 0x40000 + y * 0x1000 + z * 0x40 + w;
            n / 0x40000 == x && n / 0x1000 % 0x40 == y && n / 0x40 % 0x40 == z && n % 0x40 == w
            && n / 0x1000 == x * 0x40 + y && n / 0x40 == x * 0x1000 + y * 0x40 + z
  {
    var n := x * 0x40000 + y * 0x1000 + z * 0x40 + w;
    Digits64(x * 0x1000 + y * 0x40 + z, w);
    Digits64(x * 0x40 + y, z);
    Digits64(x, y);
    assert n / 0x1000 == n / 0x40 / 0x40 && n / 0x40000 == n / 0x1000 / 0x40;
  }

  /** And only those are runes of more than one byte: any other byte that is not
      ASCII stands alone. */
  lemma RuneIsCodePoint(s: string) returns (n: nat)
    requires s != [] && RuneLen(s) > 1
    ensures CodePoint(n) && n >= 0x80 && s[..RuneLen(s)] == Utf8(n)
  {
    var b := s[0] as int;
    if RuneLen(s) == 2 {
      n := TwoBytes(s[0], s[1]);
      assert s[..2] == [s[0], s[1]];
    } else if RuneLen(s) == 3 {
      n := ThreeBytes(s[0], s[1], s[2]);
      assert s[..3] == [s[0], s[1], s[2]];
    } else {
      n := FourBytes(s[0], s[1], s[2], s[3]);
      assert s[..4] == [s[0], s[1], s[2], s[3]];
    }
  }

  lemma TwoBytes(a: char, b: char) returns (n: nat)
    requires 0xC2 <= a as int <= 0xDF && Continuation(b)
    ensures CodePoint(n) && n >= 0x80 && Utf8(n) == [a, b]
  {
    n := (a as int - 0xC0) * 0x40 + (b as int - 0x80);
    Digits64(a as int - 0xC0, b as int - 0x80);
  }

  lemma ThreeBytes(a: char, b: char, c: char) returns (n: nat)
    requires 0xE0 <= a as int <= 0xEF && Continuation(c)
    requires (if a as int == 0xE0 then 0xA0 else 0x80) <= b as int <= (if a as int == 0xED then 0x9F else 0xBF)
    ensures CodePoint(n) && n >= 0x80 && Utf8(n) == [a, b, c]
  {
    var x, y, z := a as int - 0xE0, b as int - 0x80, c as int - 0x80;
    n := x * 0x1000 + y * 0x40 + z;
    FourDigits(0, x, y, z);
  }

  lemma FourBytes(a: char, b: char, c: char, d: char) returns (n: nat)
    requires 0xF0 <= a as int <= 0xF4 && Continuation(c) && Continuation(d)
    requires (if a as int == 0xF0 then 0x90 else 0x80) <= b as int <= (if a as int == 0xF4 then 0x8F else 0xBF)
    ensures CodePoint(n) && n >= 0x80 && Utf8(n) == [a, b, c, d]
  {
    var x, y, z, w := a as int - 0xF0, b as int - 0x80, c as int - 0x80, d as int - 0x80;
    n := x * 0x40000 + y * 0x1000 + z * 0x40 + w;
    FourDigits(x, y, z, w);
  }

  // ---- escaping ----

  function EscapeChar(c: char): string {
    if c == '\\' || c == '(' || c == ')' then ['\\', c] else [c]
  }

  function EscapeAll(s: string): string {
    if s == [] then [] else EscapeChar(s[0]) + EscapeAll(s[1..])
  }

  /** escapePDF: the loop over the runes, then the three replacements. */
  method EscapePDF(s: string) returns (r: string)
    ensures r == EscapeAll(Fold(s))
  {
    var b: string := [];
    var rest := s;
    while rest != []
      invariant Fold(s) == b + Fold(rest)
      decreases |rest|
    {
      var c := if rest[0] as int < 128 then rest[0] else '?';
      ghost var before := b;
      b := b + [c];
      rest := rest[RuneLen(rest)..];
      assert before + ([c] + Fold(rest)) == b + Fold(rest);
    }
    assert b + [] == b;
    r := EscapeAll(b);
  }

  // ---- the content stream ----

  function ContentHead(): string { "BT\n/F1 11 Tf\n12 TL\n50 800 Td\n" }

  /** The text operators of line number i. */
  function ShowLine(i: nat, ln: string): string {
    (if i > 0 then "T*\n" else "") + ("(" + EscapeAll(Fold(ln)) + ") Tj\n")
  }

  /** The text operators of the lines from index i on. */
  function ShowFrom(lines: seq<string>, i: nat): string
    requires i <= |lines|
    decreases |lines| - i
  {
    if i == |lines| then [] else ShowLine(i, lines[i]) + ShowFrom(lines, i + 1)
  }

  function Content(lines: seq<string>): string {
    ContentHead() + ShowFrom(lines, 0) + "ET"
  }

  method WriteContent(lines: seq<string>) returns (content: string)
    ensures content == Content(lines)
  {
    content := ContentHead();
    for i := 0 to |lines|
      invariant content + ShowFrom(lines, i) == ContentHead() + ShowFrom(lines, 0)
    {
      ghost var before := content;
      ghost var rest := ShowFrom(lines, i + 1);
      var newline := if i > 0 then "T*\n" else "";
      var escaped := EscapePDF(lines[i]);
      var shown := newline + ("(" + escaped + ") Tj\n");
      content := content + shown;
      assert (before + shown) + rest == before + (shown + rest);
    }
    assert content + [] == content;
    content := content + "ET";
  }

  function StreamObject(content: string): string {
    "<< /Length " + Dec(|content|) + " >>\nstream\n" + content + "\nendstream"
  }

  function CatalogObject(): string { "<< /Type /Catalog " + "/Pages 2 0 R >>" }
  function PagesObject(): string { "<< /Type /Pages " + "/Kids [3 0 R] /Count 1 >>" }
  function Resources(): string { "/Resources << /Font << /F1 4 0 R >> >> " }
  function PageFront(): string {
    "<< /Type /Page /Parent 2 0 R " + ("/MediaBox [0 0 595 842] " + Resources())
  }
  function PageObject(): string { PageFront() + "/Contents 5 0 R >>" }
  function FontObject(): string { "<< /Type /Font /Subtype /Type1 /BaseFont /Courier >>" }

  function Objects(lines: seq<string>): seq<string> {
    [CatalogObject(), PagesObject(), PageObject(), FontObject(), StreamObject(Content(lines))]
  }

  // ---- the file around any list of objects ----

  function ObjectText(i: nat, o: string): string {
    Dec(i) + (" 0 obj\n" + o + "\nendobj\n")
  }

  /** The file up to, not including, object number n + 1. */
  function Body(objs: seq<string>, n: nat): string
    requires n <= |objs|
  {
    if n == 0 then "%PDF-1.4\n" else Body(objs, n - 1) + ObjectText(n, objs[n - 1])
  }

  function Entry(offset: nat): string {
    ZeroPadded(offset, 10) + " 00000 n \n"
  }

  /** Cross-reference entries of objects 1 to n. */
  function Entries(objs: seq<string>, n: nat): string
    requires n <= |objs|
  {
    if n == 0 then [] else Entries(objs, n - 1) + Entry(|Body(objs, n - 1)|)
  }

  function FreeEntry(): string { "0000000000 65535 f \n" }

  function XrefTable(objs: seq<string>): string {
    "xref\n0 " + (Dec(|objs| + 1) + "\n") + (FreeEntry() + Entries(objs, |objs|))
  }

  function Trailer(count: nat): string {
    "trailer\n<< /Size " + Dec(count) + " /Root 1 0 R >>\n"
  }

  function Layout(objs: seq<string>): string {
    var body := Body(objs, |objs|);
    body + XrefTable(objs) + Trailer(|objs| + 1) + "startxref" + ("\n" + Dec(|body|) + "\n%%EOF")
  }

  method BuildPDF(lines: seq<string>) returns (buf: string)
    ensures buf == Layout(Objects(lines))
  {
    var content := WriteContent(lines);
    var objs := [CatalogObject(), PagesObject(), PageObject(), FontObject(), StreamObject(content)];
    buf := WriteFile(objs);
  }

  /** The loop over the objects: the body and the offset of each object. */
  method WriteBody(objs: seq<string>) returns (buf: string, offsets: seq<nat>)
    ensures buf == Body(objs, |objs|)
    ensures |offsets| == |objs| + 1
    ensures forall j :: 1 <= j <= |objs| ==> offsets[j] == |Body(objs, j - 1)|
  {
    hide ObjectText;
    buf := "%PDF-1.4\n";
    offsets := [0];
    for i := 0 to |objs|
      invariant buf == Body(objs, i)
      invariant |offsets| == i + 1
      invariant forall j :: 1 <= j <= i ==> offsets[j] == |Body(objs, j - 1)|
    {
      offsets := offsets + [|buf|];
      buf := buf + ObjectText(i + 1, objs[i]);
    }
  }

  /** The loop over the offsets: the cross-reference entries. */
  method WriteEntries(objs: seq<string>, offsets: seq<nat>) returns (entries: string)
    requires |offsets| == |objs| + 1
    requires forall j :: 1 <= j <= |objs| ==> offsets[j] == |Body(objs, j - 1)|
    ensures entries == Entries(objs, |objs|)
  {
    entries := [];
    for i := 1 to |objs| + 1
      invariant entries == Entries(objs, i - 1)
    {
      entries := entries + Entry(offsets[i]);
    }
  }

  /** Second half of buildPDF: the objects, the table and the trailer. */
  method WriteFile(objs: seq<string>) returns (buf: string)
    ensures buf == Layout(objs)
  {
    var body, offsets := WriteBody(objs);
    var xrefPos := |body|;
    var entries := WriteEntries(objs, offsets);
    var table := "xref\n0 " + (Dec(|objs| + 1) + "\n") + (FreeEntry() + entries);
    buf := body + table + Trailer(|objs| + 1) + "startxref" + ("\n" + Dec(xrefPos) + "\n%%EOF");
  }
}
