/** A reader of the PDF file format (ISO 32000-1) and the proof that it recovers
    what the invoice writer laid down. Objects are found through `startxref`, the
    cross-reference table and the references from the trailer on; of content
    streams it knows text blocks with this writer's opening operators. */
module PdfReader {
  import opened Text
  import opened InvoicePdf

  // ---- literal strings (section 7.3.4.2) ----

  predicate IsOctal(c: char) {
    '0' <= c <= '7'
  }

  /** Number of octal digits of a \ddd escape: one to three. */
  function OctalRun(s: string): (n: nat)
    ensures n <= |s| && n <= 3
    ensures forall i :: 0 <= i < n ==> IsOctal(s[i])
  {
    if s == [] || !IsOctal(s[0]) then 0
    else if |s| == 1 || !IsOctal(s[1]) then 1
    else if |s| == 2 || !IsOctal(s[2]) then 2
    else 3
  }

  function OctalValue(s: string): (v: nat)
    requires forall i :: 0 <= i < |s| ==> IsOctal(s[i])
  {
    if s == [] then 0
    else
      assert IsOctal(s[|s| - 1]);
      OctalValue(s[..|s| - 1]) * 8 + (s[|s| - 1] as int - '0' as int)
  }

  /** What the escape after a backslash stands for, and how long it is. */
  function Escape(s: string): (r: (string, nat))
    requires s != []
    ensures 1 <= r.1 <= |s|
  {
    if s[0] == 'n' then ("\n", 1)
    else if s[0] == 'r' then ("\r", 1)
    else if s[0] == 't' then ("\t", 1)
    else if s[0] == 'b' then ([8 as char], 1)
    else if s[0] == 'f' then ([12 as char], 1)
    else if IsOctal(s[0]) then
      ([(OctalValue(s[..OctalRun(s)]) % 256) as char], OctalRun(s))
    else if s[0] == '\r' && |s| >= 2 && s[1] == '\n' then ("", 2)
    else if s[0] == '\r' || s[0] == '\n' then ("", 1)
    else ([s[0]], 1)
  }

  function Prepend(t: string, r: Scanned<string>): Scanned<string> {
    match r case Stuck => Stuck case Scanned(v, rest) => Scanned(t + v, rest)
  }

  /** Reads up to the parenthesis that closes the string. */
  function ReadLiteral(s: string, depth: nat): (r: Scanned<string>)
    ensures r.Scanned? ==> |r.rest| < |s|
    decreases |s|
  {
    if s == [] then Stuck
    else if s[0] == '\\' then
      if |s| == 1 then Stuck
      else var (t, n) := Escape(s[1..]); Prepend(t, ReadLiteral(s[1 + n..], depth))
    else if s[0] == ')' && depth == 0 then Scanned([], s[1..])
    else if s[0] == ')' then Prepend(")", ReadLiteral(s[1..], depth - 1))
    else if s[0] == '(' then Prepend("(", ReadLiteral(s[1..], depth + 1))
    else if s[0] == '\r' && |s| >= 2 && s[1] == '\n' then Prepend("\n", ReadLiteral(s[2..], depth))
    else if s[0] == '\r' then Prepend("\n", ReadLiteral(s[1..], depth))
    else Prepend([s[0]], ReadLiteral(s[1..], depth))
  }

  /** Every end-of-line marker becomes one line feed. */
  function NormaliseEol(s: string): (t: string)
    ensures |t| <= |s|
  {
    if s == [] then []
    else if s[0] == '\r' && |s| >= 2 && s[1] == '\n' then "\n" + NormaliseEol(s[2..])
    else if s[0] == '\r' then "\n" + NormaliseEol(s[1..])
    else [s[0]] + NormaliseEol(s[1..])
  }

  lemma EscapedFirst(t: string, rest: string)
    ensures var e := EscapeAll(t) + ")" + rest;
            e != [] && (e[0] == '\n' <==> t != [] && t[0] == '\n')
  {
  }

  lemma EscapeStep(t: string, rest: string)
    requires t != []
    ensures EscapeAll(t) + ")" + rest == EscapeChar(t[0]) + (EscapeAll(t[1..]) + ")" + rest)
  {
  }

  lemma ReadEscaped(c: char, tail: string)
    requires c == '\\' || c == '(' || c == ')'
    ensures ReadLiteral(['\\', c] + tail, 0) == Prepend([c], ReadLiteral(tail, 0))
  {
    var s := ['\\', c] + tail;
    assert s[1..][0] == c && s[2..] == tail;
  }

  lemma ReadPlain(c: char, tail: string)
    requires c != '\\' && c != '(' && c != ')' && !(c == '\r' && tail != [] && tail[0] == '\n')
    ensures ReadLiteral([c] + tail, 0) == Prepend([if c == '\r' then '\n' else c], ReadLiteral(tail, 0))
  {
    assert ([c] + tail)[1..] == tail;
  }

  lemma ReadPair(tail: string)
    ensures ReadLiteral(['\r', '\n'] + tail, 0) == Prepend("\n", ReadLiteral(tail, 0))
  {
    assert (['\r', '\n'] + tail)[2..] == tail;
  }

  lemma ReadEnd(rest: string)
    ensures ReadLiteral(EscapeAll([]) + ")" + rest, 0) == Scanned(NormaliseEol([]), rest)
  {
    assert EscapeAll([]) + ")" + rest == [')'] + rest;
  }

  lemma NormaliseStep(t: string)
    requires t != []
    ensures NormaliseEol(t) ==
            if t[0] == '\r' && |t| >= 2 && t[1] == '\n' then "\n" + NormaliseEol(t[2..])
            else [if t[0] == '\r' then '\n' else t[0]] + NormaliseEol(t[1..])
  {
  }

  lemma EscapePair(t: string, rest: string)
    requires |t| >= 2 && t[0] == '\r' && t[1] == '\n'
    ensures EscapeAll(t) + ")" + rest == ['\r', '\n'] + (EscapeAll(t[2..]) + ")" + rest)
  {
    hide EscapeAll;
    EscapeStep(t, rest);
    EscapeStep(t[1..], rest);
    assert t[1..][1..] == t[2..];
    Assoc(['\r'], ['\n'], EscapeAll(t[2..]) + ")" + rest);
    assert ['\r'] + ['\n'] == ['\r', '\n'];
  }

  /** Reading an escaped text back: only end-of-line markers are normalised. */
  lemma {:induction false} LiteralRoundTrip(t: string, rest: string)
    ensures ReadLiteral(EscapeAll(t) + ")" + rest, 0) == Scanned(NormaliseEol(t), rest)
    decreases |t|
  {
    if t == [] {
      ReadEnd(rest);
    } else {
      hide ReadLiteral, NormaliseEol, EscapeAll;
      var c, tail := t[0], EscapeAll(t[1..]) + ")" + rest;
      NormaliseStep(t);
      if c == '\r' && |t| >= 2 && t[1] == '\n' {
        EscapePair(t, rest);
        ReadPair(EscapeAll(t[2..]) + ")" + rest);
        LiteralRoundTrip(t[2..], rest);
      } else {
        EscapeStep(t, rest);
        LiteralRoundTrip(t[1..], rest);
        if c == '\\' || c == '(' || c == ')' {
          ReadEscaped(c, tail);
        } else {
          EscapedFirst(t[1..], rest);
          ReadPlain(c, tail);
        }
      }
    }
  }

  // ---- the content stream ----

  /** The strings shown on the page, one per line; None when an operator is
      missing or a string is not closed. */
  function ReadShown(s: string, first: bool): Option<seq<string>>
    decreases |s|
  {
    if s == "ET" then Some([])
    else
      var t := if first then s else if HasPrefix(s, "T*\n") then s[3..] else [];
      if !HasPrefix(t, "(") then None
      else
        var shown := ReadLiteral(t[1..], 0);
        if shown.Stuck? || !HasPrefix(shown.rest, " Tj\n") then None
        else
          match ReadShown(shown.rest[4..], false)
          case None => None
          case Some(more) => Some([shown.value] + more)
  }

  function ReadContent(s: string): Option<seq<string>> {
    if HasPrefix(s, ContentHead()) then ReadShown(s[|ContentHead()|..], true) else None
  }

  function Shown(ln: string): string {
    NormaliseEol(Fold(ln))
  }

  /** What a reader is expected to see of the lines from index i on. */
  function ShownFrom(lines: seq<string>, i: nat): (page: seq<string>)
    requires i <= |lines|
    ensures |page| == |lines| - i
    ensures forall k :: 0 <= k < |page| ==> page[k] == Shown(lines[i + k])
    decreases |lines| - i
  {
    if i == |lines| then [] else [Shown(lines[i])] + ShownFrom(lines, i + 1)
  }

  /** The operator that shows one line, before what follows. */
  function ShownText(ln: string, more: string): string {
    "(" + EscapeAll(Fold(ln)) + ") Tj\n" + more
  }

  lemma ShownString(ln: string, more: string)
    ensures var t := ShownText(ln, more);
            HasPrefix(t, "(") && ReadLiteral(t[1..], 0) == Scanned(Shown(ln), " Tj\n" + more)
  {
    hide EscapeAll, Fold, ReadLiteral, NormaliseEol;
    var e, f := EscapeAll(Fold(ln)), " Tj\n" + more;
    LiteralRoundTrip(Fold(ln), f);
    CloseParts(e, more);
    PrefixOfConcat("(", e + ")" + f);
  }

  lemma CloseParts(e: string, more: string)
    ensures "(" + e + ") Tj\n" + more == "(" + (e + ")" + (" Tj\n" + more))
  {
    assert ") Tj\n" == ")" + " Tj\n";
    Assoc("(" + e, ")", " Tj\n");
    Assoc("(" + e + ")", " Tj\n", more);
    Assoc("(", e, ")");
    Assoc("(", e + ")", " Tj\n" + more);
  }

  lemma NoMoreLines(lines: seq<string>)
    ensures ReadShown(ShowFrom(lines, |lines|) + "ET", |lines| == 0) == Some(ShownFrom(lines, |lines|))
  {
    assert ShowFrom(lines, |lines|) + "ET" == "ET";
  }

  lemma {:induction false} ContentRoundTrip(lines: seq<string>, i: nat)
    requires i <= |lines|
    ensures ReadShown(ShowFrom(lines, i) + "ET", i == 0) == Some(ShownFrom(lines, i))
    decreases |lines| - i
  {
    hide Shown, ReadLiteral, ShowLine, ReadShown, HasPrefix, ShowFrom, ShownFrom, ShownText;
    if i == |lines| {
      NoMoreLines(lines);
    } else {
      ShowFromStep(lines, i);
      var more := ShowFrom(lines, i + 1) + "ET";
      ShownString(lines[i], more);
      ContentRoundTrip(lines, i + 1);
      ShowLineSplit(i, lines[i], ShowFrom(lines, i + 1));
      ShownStep(ShowFrom(lines, i) + "ET", i == 0, ShownText(lines[i], more), Shown(lines[i]), more,
                ShownFrom(lines, i + 1));
    }
  }

  lemma ShowFromStep(lines: seq<string>, i: nat)
    requires i < |lines|
    ensures ShowFrom(lines, i) == ShowLine(i, lines[i]) + ShowFrom(lines, i + 1)
    ensures ShownFrom(lines, i) == [Shown(lines[i])] + ShownFrom(lines, i + 1)
  {
    hide ShowLine, Shown;
  }

  /** Reading one line shown, when the rest can be read. */
  lemma ShownStep(s: string, first: bool, t: string, value: string, more: string, page: seq<string>)
    requires if first then s == t && s != [] && s[0] == '(' else HasPrefix(s, "T*\n") && s[3..] == t && s[0] == 'T'
    requires HasPrefix(t, "(") && ReadLiteral(t[1..], 0) == Scanned(value, " Tj\n" + more)
    requires ReadShown(more, false) == Some(page)
    ensures ReadShown(s, first) == Some([value] + page)
  {
    hide ReadLiteral;
    PrefixOfConcat(" Tj\n", more);
    assert "ET"[0] == 'E';
  }

  lemma ShowLineSplit(i: nat, ln: string, rest: string)
    ensures var s := ShowLine(i, ln) + rest + "ET";
            var t := ShownText(ln, rest + "ET");
            if i == 0 then s == t && s[0] == '('
            else HasPrefix(s, "T*\n") && s[3..] == t && s[0] == 'T'
  {
    var e := "(" + EscapeAll(Fold(ln)) + ") Tj\n";
    hide EscapeAll, Fold;
    Assoc(e, rest, "ET");
    if i > 0 {
      Assoc("T*\n", e, rest);
      Assoc("T*\n", e + rest, "ET");
      PrefixOfConcat("T*\n", ShownText(ln, rest + "ET"));
    }
  }

  // ---- file structure (sections 7.5.4, 7.5.5 and 7.3.8.2) ----

  /** Position of the last occurrence of p. */
  function LastIndex(s: string, p: string): Option<nat> {
    if HasPrefix(s, p) && (|s| == 0 || LastIndex(s[1..], p).None?) then Some(0)
    else if s == [] then None
    else match LastIndex(s[1..], p) case None => None case Some(i) => Some(i + 1)
  }

  /** The byte offset that follows the last `startxref`. */
  function StartXref(file: string): Option<nat> {
    match LastIndex(file, "startxref")
    case None => None
    case Some(p) =>
      if p + 10 > |file| then None
      else match ScanNat(file[p + 10..]) case Stuck => None case Scanned(v, _) => Some(v)
  }

  /** Where the 20-byte entries of the table at x start, and how many there are. */
  function TableAt(file: string, x: nat): Option<(nat, nat)> {
    if x > |file| || !HasPrefix(file[x..], "xref\n0 ") then None
    else
      match ScanNat(file[x + 7..])
      case Stuck => None
      case Scanned(count, rest) =>
        if HasPrefix(rest, "\n") then Some((|file| - |rest| + 1, count)) else None
  }

  /** The offset in entry number i, when that entry is in use. */
  function EntryOffset(file: string, entries: nat, i: nat): Option<nat> {
    var p := entries + 20 * i;
    if p + 20 > |file| then None
    else
      var e := file[p..p + 20];
      if AllDigits(e[..10]) && e[10..] == " 00000 n \n" then Some(Value(e[..10])) else None
  }

  /** What follows `i 0 obj` at the place the cross-reference table gives. */
  function ReadObject(file: string, i: nat): Option<string> {
    match StartXref(file)
    case None => None
    case Some(x) =>
      match TableAt(file, x)
      case None => None
      case Some((entries, count)) =>
        if i >= count then None
        else
          match EntryOffset(file, entries, i)
          case None => None
          case Some(at) =>
            if at <= |file| && HasPrefix(file[at..], Dec(i) + " 0 obj\n")
            then Some(file[at + |Dec(i)| + 7..]) else None
  }

  /** The bytes of a stream object: exactly /Length of them, then `endstream`. */
  function ReadStream(s: string): Option<string> {
    if !HasPrefix(s, "<< /Length ") then None
    else
      match ScanNat(s[11..])
      case Stuck => None
      case Scanned(n, rest) =>
        if HasPrefix(rest, " >>\nstream\n") && 11 + n <= |rest| && HasPrefix(rest[11 + n..], "\nendstream\nendobj\n")
        then Some(rest[11..11 + n]) else None
  }

  /** What follows the first occurrence of a key. */
  function AfterKey(s: string, key: string): Option<string> {
    if HasPrefix(s, key) then Some(s[|key|..])
    else if s == [] then None
    else AfterKey(s[1..], key)
  }

  /** The number of the object that a key of a dictionary refers to. */
  function Ref(dict: string, key: string): Option<nat> {
    match AfterKey(dict, key)
    case None => None
    case Some(r) =>
      match ScanNat(r)
      case Stuck => None
      case Scanned(n, rest) => if HasPrefix(rest, " 0 R") then Some(n) else None
  }

  /** /Root of the trailer, which follows the last entry of the table. */
  function Root(file: string): Option<nat> {
    match StartXref(file)
    case None => None
    case Some(x) =>
      match TableAt(file, x)
      case None => None
      case Some((entries, count)) =>
        var t := entries + 20 * count;
        if t <= |file| && HasPrefix(file[t..], "trailer\n") then Ref(file[t..], "/Root ") else None
  }

  /** From an object to the one that a key of its dictionary refers to. */
  function Follow(file: string, from: Option<nat>, key: string): Option<nat> {
    match from
    case None => None
    case Some(i) => match ReadObject(file, i) case None => None case Some(o) => Ref(o, key)
  }

  /** The content stream of the first page: catalogue, page tree, page, contents
      (sections 7.7.2, 7.7.3). */
  function FirstContents(file: string): Option<nat> {
    Follow(file, Follow(file, Follow(file, Root(file), "/Pages "), "/Kids ["), "/Contents ")
  }

  /** The lines of text of the first page. */
  function ReadPage(file: string): Option<seq<string>> {
    match FirstContents(file)
    case None => None
    case Some(i) =>
      match ReadObject(file, i)
      case None => None
      case Some(o) => match ReadStream(o) case None => None case Some(content) => ReadContent(content)
  }

  // ---- what the reader finds in a written file ----

  lemma {:induction false} LastIndexBefore(a: string, u: string, p: string)
    requires LastIndex(u, p).Some?
    ensures LastIndex(a + u, p) == Some(|a| + LastIndex(u, p).value)
  {
    if a == [] {
      assert a + u == u;
    } else {
      assert (a + u)[1..] == a[1..] + u;
      LastIndexBefore(a[1..], u, p);
    }
  }

  lemma {:induction false} LastIndexAbsent(s: string, p: string)
    requires p != [] && p[0] !in s
    ensures LastIndex(s, p).None?
  {
    if s != [] {
      LastIndexAbsent(s[1..], p);
      assert s[0] != p[0];
    }
  }

  /** A keyword followed by text without its first letter is its own last
      occurrence, whatever stands before. */
  lemma LastKeyword(a: string, p: string, tail: string)
    requires p != [] && p[0] !in p[1..] && p[0] !in tail
    ensures LastIndex(a + (p + tail), p) == Some(|a|)
  {
    var u := p + tail;
    PrefixOfConcat(p, tail);
    assert u[1..] == p[1..] + tail;
    LastIndexAbsent(u[1..], p);
    assert LastIndex(u, p) == Some(0);
    LastIndexBefore(a, u, p);
  }

  lemma StartXrefFound(a: string, x: nat)
    ensures StartXref(a + ("startxref" + ("\n" + Dec(x) + "\n%%EOF"))) == Some(x)
  {
    var k := "startxref";
    var after := Dec(x) + "\n%%EOF";
    var tail := "\n" + Dec(x) + "\n%%EOF";
    TailWithoutS(x);
    ScanDec(x, "\n%%EOF");
    LastKeyword(a, k, tail);
    hide Dec, ScanNat;
    Assoc("\n", Dec(x), "\n%%EOF");
    Assoc(k, "\n", after);
    Assoc(a, k + "\n", after);
    PrefixOfConcat(a + (k + "\n"), after);
  }

  lemma TailWithoutS(x: nat)
    ensures 's' !in "\n" + Dec(x) + "\n%%EOF"
  {
    assert AllDigits(Dec(x));
    hide Dec;
    assert 's' !in "\n" && 's' !in "\n%%EOF" && 's' !in Dec(x);
  }

  lemma TableFound(body: string, count: nat, table: string)
    ensures var head := "xref\n0 " + (Dec(count) + "\n");
            TableAt(body + (head + table), |body|) == Some((|body| + |head|, count))
  {
    var k := "xref\n0 ";
    var file := body + (k + (Dec(count) + "\n") + table);
    var u := Dec(count) + ("\n" + table);
    assert file[|body|..] == k + u;
    PrefixOfConcat(k, u);
    assert file[|body| + 7..] == u;
    ScanDec(count, "\n" + table);
    PrefixOfConcat("\n", table);
  }

  const MAX_OFFSET := 10_000_000_000

  lemma TenDigits()
    ensures Pow10(10) == MAX_OFFSET
  {
    assert Pow10(5) == 100_000 by { assert Pow10(2) == 100; }
    assert Pow10(8) == 100_000_000;
  }

  /** An entry has its 20 bytes exactly when the offset fits ten digits. */
  lemma EntryWidth(offset: nat)
    ensures |Entry(offset)| == 20 <==> offset < MAX_OFFSET
  {
    TenDigits();
    DecWidth(offset, 10);
  }

  ghost predicate OffsetsFit(objs: seq<string>) {
    forall i :: 0 <= i < |objs| ==> |Body(objs, i)| < MAX_OFFSET
  }

  lemma {:induction false} EntriesLaidOut(objs: seq<string>, n: nat, i: nat)
    requires OffsetsFit(objs) && n <= |objs|
    ensures |Entries(objs, n)| == 20 * n
    ensures 1 <= i <= n ==> Entries(objs, n)[20 * (i - 1)..20 * i] == Entry(|Body(objs, i - 1)|)
  {
    hide Entry, Body;
    if n > 0 {
      EntriesLaidOut(objs, n - 1, if i < n then i else 0);
      EntryWidth(|Body(objs, n - 1)|);
    }
  }

  lemma EntryRead(pre: string, offset: nat, post: string)
    requires offset < MAX_OFFSET
    ensures EntryOffset(pre + Entry(offset) + post, |pre|, 0) == Some(offset)
  {
    EntryWidth(offset);
    var file := pre + Entry(offset) + post;
    assert file[|pre|..|pre| + 20] == Entry(offset);
    var d := ZeroPadded(offset, 10);
    assert Entry(offset)[..10] == d;
    ValueOfZeroPadded(offset, 10);
  }

  lemma {:induction false} BodySplit(objs: seq<string>, n: nat, i: nat)
    requires 1 <= i <= n <= |objs|
    ensures HasPrefix(Body(objs, n), Body(objs, i - 1) + ObjectText(i, objs[i - 1]))
    decreases n
  {
    hide ObjectText, HasPrefix;
    if i < n {
      BodySplit(objs, n - 1, i);
      PrefixGrows(Body(objs, n - 1), ObjectText(n, objs[n - 1]), Body(objs, i - 1) + ObjectText(i, objs[i - 1]));
    } else {
      PrefixOfItself(Body(objs, n));
    }
  }

  lemma PrefixOfItself(s: string)
    ensures HasPrefix(s, s)
  {
  }

  lemma SliceOut(es: string, a: nat, c: nat, e: string, pre: string, post: string)
    requires a <= c <= |es| && es[a..c] == e
    ensures pre + es + post == (pre + es[..a]) + e + (es[c..] + post)
  {
    assert es == es[..a] + e + es[c..];
  }

  /** The table entry of object i holds the offset of object i. */
  lemma EntryFound(objs: seq<string>, i: nat, pre: string, post: string)
    requires OffsetsFit(objs) && 1 <= i <= |objs|
    ensures EntryOffset((pre + FreeEntry()) + Entries(objs, |objs|) + post, |pre|, i) == Some(|Body(objs, i - 1)|)
  {
    var es, free := Entries(objs, |objs|), FreeEntry();
    var offset := |Body(objs, i - 1)|;
    EntriesLaidOut(objs, |objs|, i);
    SliceOut(es, 20 * (i - 1), 20 * i, Entry(offset), pre + free, post);
    EntryRead(pre + free + es[..20 * (i - 1)], offset, es[20 * i..] + post);
    assert |free| == 20;
  }

  function XrefHead(n: nat): string {
    "xref\n0 " + (Dec(n) + "\n")
  }

  function Tail(x: nat): string {
    "startxref" + ("\n" + Dec(x) + "\n%%EOF")
  }

  /** The three ways in which the reader cuts the file. */
  lemma LayoutCuts(objs: seq<string>, body: string, es: string, x: nat, file: string)
    requires body == Body(objs, |objs|) && es == Entries(objs, |objs|) && x == |body| && file == Layout(objs)
    ensures var n := |objs| + 1;
            var post := Trailer(n) + Tail(x);
            file == (body + XrefHead(n) + FreeEntry() + es + Trailer(n)) + Tail(x)
            && file == body + (XrefHead(n) + (FreeEntry() + es + post))
            && file == ((body + XrefHead(n)) + FreeEntry()) + es + post
  {
    var n := |objs| + 1;
    var h, f, t, u := XrefHead(n), FreeEntry(), Trailer(n), Tail(x);
    assert XrefTable(objs) == h + (f + es);
    var k, r := "startxref", "\n" + Dec(x) + "\n%%EOF";
    LayoutAssoc(body, h, f, es, t, k, r);
    assert file == body + (h + (f + es)) + t + k + r;
  }

  lemma LayoutAssoc(b: string, h: string, f: string, e: string, t: string, k: string, r: string)
    ensures b + (h + (f + e)) + t + k + r == (b + h + f + e + t) + (k + r)
    ensures b + (h + (f + e)) + t + k + r == b + (h + (f + e + (t + (k + r))))
    ensures b + (h + (f + e)) + t + k + r == ((b + h) + f) + e + (t + (k + r))
  {
  }

  /** `startxref` leads to the table, and entry i to the offset of object i. */
  lemma TableLeads(objs: seq<string>, i: nat, file: string, body: string)
    requires OffsetsFit(objs) && 1 <= i <= |objs|
    requires file == Layout(objs) && body == Body(objs, |objs|)
    ensures StartXref(file) == Some(|body|)
    ensures var entries := |body| + |XrefHead(|objs| + 1)|;
            TableAt(file, |body|) == Some((entries, |objs| + 1))
            && EntryOffset(file, entries, i) == Some(|Body(objs, i - 1)|)
  {
    hide Layout, StartXref, TableAt, EntryOffset, Body, Entries, Trailer, FreeEntry;
    var n, es := |objs| + 1, Entries(objs, |objs|);
    var post := Trailer(n) + Tail(|body|);
    LayoutCuts(objs, body, es, |body|, file);
    StartXrefFound(body + XrefHead(n) + FreeEntry() + es + Trailer(n), |body|);
    TableFound(body, n, FreeEntry() + es + post);
    EntryFound(objs, i, body + XrefHead(n), post);
  }

  /** Following `startxref` and the table, a reader lands exactly on `i 0 obj`
      of every object, whatever text the objects contain. */
  lemma ObjectFound(objs: seq<string>, i: nat, file: string)
    requires OffsetsFit(objs) && 1 <= i <= |objs| && file == Layout(objs)
    ensures var o := ReadObject(file, i);
            o.Some? && HasPrefix(o.value, objs[i - 1] + "\nendobj\n")
  {
    hide Layout, StartXref, TableAt, EntryOffset, Body, ObjectText, XrefHead;
    var body := Body(objs, |objs|);
    TableLeads(objs, i, file, body);
    BodySplit(objs, |objs|, i);
    BodyFirst(objs, file, body);
    ObjectAtOffset(file, body, objs, i);
  }

  lemma BodyFirst(objs: seq<string>, file: string, body: string)
    requires file == Layout(objs) && body == Body(objs, |objs|)
    ensures HasPrefix(file, body)
  {
    LayoutCuts(objs, body, Entries(objs, |objs|), |body|, file);
    var n := |objs| + 1;
    PrefixOfConcat(body, XrefHead(n) + (FreeEntry() + Entries(objs, |objs|) + (Trailer(n) + Tail(|body|))));
  }

  lemma ObjectParts(i: nat, o: string)
    ensures ObjectText(i, o) == (Dec(i) + " 0 obj\n") + (o + "\nendobj\n")
  {
    hide Dec;
    Assoc(" 0 obj\n", o, "\nendobj\n");
    Assoc(Dec(i), " 0 obj\n", o + "\nendobj\n");
  }

  lemma ObjectAtOffset(file: string, body: string, objs: seq<string>, i: nat)
    requires 1 <= i <= |objs|
    requires HasPrefix(file, body) && HasPrefix(body, Body(objs, i - 1) + ObjectText(i, objs[i - 1]))
    ensures var at := |Body(objs, i - 1)|;
            at <= |file| && HasPrefix(file[at..], Dec(i) + " 0 obj\n")
            && at + |Dec(i)| + 7 <= |file|
            && HasPrefix(file[at + |Dec(i)| + 7..], objs[i - 1] + "\nendobj\n")
  {
    var b := Body(objs, i - 1);
    var h, t := Dec(i) + " 0 obj\n", objs[i - 1] + "\nendobj\n";
    ObjectParts(i, objs[i - 1]);
    hide Body, ObjectText, Dec;
    assert body[..|b + (h + t)|] == b + (h + t) && file[..|body|] == body;
    CutThree(file, b, h, t);
  }

  lemma CutThree(file: string, b: string, h: string, t: string)
    requires |b| + |h| + |t| <= |file| && file[..|b| + |h| + |t|] == b + (h + t)
    ensures HasPrefix(file[|b|..], h) && HasPrefix(file[|b| + |h|..], t)
  {
    var front := b + (h + t);
    assert forall i :: 0 <= i < |h| ==> file[|b| + i] == front[|b| + i] == h[i];
    assert forall i :: 0 <= i < |t| ==> file[|b| + |h| + i] == front[|b| + |h| + i] == t[i];
    assert file[|b|..][..|h|] == h && file[|b| + |h|..][..|t|] == t;
  }

  /** `/Length` delimits exactly the content, even when the content itself
      contains `endstream`. */
  lemma StreamFound(content: string, s: string)
    requires HasPrefix(s, StreamObject(content) + "\nendobj\n")
    ensures ReadStream(s) == Some(content)
  {
    hide StreamObject, StreamEnd, ObjectEnd;
    var post := s[|StreamObject(content) + "\nendobj\n"|..];
    StreamText(content, post);
    assert s == StreamObject(content) + "\nendobj\n" + post;
    EndFound(post);
    StreamRead(content, StreamEnd() + ObjectEnd() + post);
  }

  function StreamEnd(): string { "\nendstream" }

  function ObjectEnd(): string { "\nendobj\n" }

  lemma StreamText(content: string, post: string)
    ensures StreamObject(content) + "\nendobj\n" + post ==
            "<< /Length " + (Dec(|content|) + (" >>\nstream\n" + (content + (StreamEnd() + ObjectEnd() + post))))
  {
    hide Dec;
    Regroup("<< /Length ", Dec(|content|), " >>\nstream\n", content, StreamEnd(), ObjectEnd(), post);
  }

  lemma EndFound(post: string)
    ensures HasPrefix(StreamEnd() + ObjectEnd() + post, "\nendstream\nendobj\n")
  {
    assert StreamEnd() + ObjectEnd() == "\nendstream\nendobj\n";
    PrefixOfConcat(StreamEnd() + ObjectEnd(), post);
  }

  lemma Regroup(a: string, b: string, c: string, d: string, e: string, f: string, g: string)
    ensures a + b + c + d + e + f + g == a + (b + (c + (d + (e + f + g))))
  {
    var r := e + f + g;
    Assoc(a + b + c + d + e, f, g);
    Assoc(a + b + c + d, e, f + g);
    Assoc(e, f, g);
    Assoc(a + b + c, d, r);
    Assoc(a + b, c, d + r);
    Assoc(a, b, c + (d + r));
  }

  lemma StreamRead(content: string, post: string)
    requires HasPrefix(post, "\nendstream\nendobj\n")
    ensures ReadStream("<< /Length " + (Dec(|content|) + (" >>\nstream\n" + (content + post)))) == Some(content)
  {
    var k, mid := "<< /Length ", " >>\nstream\n";
    var rest := mid + (content + post);
    PrefixOfConcat(k, Dec(|content|) + rest);
    ScanDec(|content|, rest);
    PrefixOfConcat(mid, content + post);
    hide Dec, HasPrefix, ScanNat;
    CutContent(mid, content, post);
  }

  lemma CutContent(mid: string, content: string, post: string)
    ensures var rest := mid + (content + post);
            rest[|mid|..|mid| + |content|] == content && rest[|mid| + |content|..] == post
  {
  }

  /** The four objects before the content stream have a fixed size, so the
      offsets of an invoice always fit their ten digits. */
  lemma InvoiceOffsetsFit(lines: seq<string>)
    ensures OffsetsFit(Objects(lines))
  {
    var objs := Objects(lines);
    FixedSizes();
    ObjectSize(1, objs[0]);
    ObjectSize(2, objs[1]);
    ObjectSize(3, objs[2]);
    ObjectSize(4, objs[3]);
    assert |Body(objs, 0)| == 9;
    BodyStep(objs, 1);
    BodyStep(objs, 2);
    BodyStep(objs, 3);
    BodyStep(objs, 4);
    hide Body, StreamObject, ObjectText, CatalogObject, PagesObject, PageObject, FontObject;
    forall i | 0 <= i < |objs|
      ensures |Body(objs, i)| < MAX_OFFSET
    {
      assert i == 0 || i == 1 || i == 2 || i == 3 || i == 4;
    }
  }

  lemma BodyStep(objs: seq<string>, n: nat)
    requires 1 <= n <= |objs|
    ensures |Body(objs, n)| == |Body(objs, n - 1)| + |ObjectText(n, objs[n - 1])|
  {
    hide ObjectText;
  }

  lemma FixedSizes()
    ensures |CatalogObject()| < 60 && |PagesObject()| < 60 && |PageObject()| < 150 && |FontObject()| < 80
  {
  }

  lemma ObjectSize(i: nat, o: string)
    requires i < 10
    ensures |ObjectText(i, o)| == |o| + 16
  {
    assert |Dec(i)| == 1;
  }

  lemma ContentRead(lines: seq<string>)
    ensures ReadContent(Content(lines)) == Some(ShownFrom(lines, 0))
  {
    var head, shown := ContentHead(), ShowFrom(lines, 0) + "ET";
    assert Content(lines) == head + shown;
    PrefixOfConcat(head, shown);
    ContentRoundTrip(lines, 0);
  }

  // ---- from the trailer to the page ----

  /** A key is found where its second letter has not occurred before. */
  lemma {:induction false} KeyFound(pre: string, key: string, rest: string)
    requires |key| >= 2 && key[0] != key[1] && key[1] !in pre
    ensures AfterKey(pre + (key + rest), key) == Some(rest)
  {
    PrefixOfConcat(key, rest);
    if pre == [] {
      assert pre + (key + rest) == key + rest;
    } else {
      var s := pre + (key + rest);
      assert s[1] == if |pre| > 1 then pre[1] else key[0];
      assert s[1..] == pre[1..] + (key + rest);
      KeyFound(pre[1..], key, rest);
    }
  }

  lemma RefFound(dict: string, pre: string, key: string, n: nat)
    requires |key| >= 2 && key[0] != key[1] && key[1] !in pre
    requires HasPrefix(dict, pre + (key + (Dec(n) + " 0 R")))
    ensures Ref(dict, key) == Some(n)
  {
    var front := pre + (key + (Dec(n) + " 0 R"));
    var post := dict[|front|..];
    CutFront(dict, front);
    hide AfterKey, Dec, ScanNat, HasPrefix;
    RefText(pre, key, Dec(n), " 0 R", post);
    KeyFound(pre, key, Dec(n) + (" 0 R" + post));
    ScanDec(n, " 0 R" + post);
    PrefixOfConcat(" 0 R", post);
  }

  lemma CutFront(s: string, p: string)
    requires HasPrefix(s, p)
    ensures s == p + s[|p|..]
  {
  }

  lemma RefText(a: string, b: string, c: string, d: string, e: string)
    ensures a + (b + (c + d)) + e == a + (b + (c + (d + e)))
  {
    Assoc(a, b + (c + d), e);
    Assoc(b, c + d, e);
    Assoc(c, d, e);
  }

  lemma PrefixOfPrefix(s: string, u: string, p: string)
    requires HasPrefix(s, u) && HasPrefix(u, p)
    ensures HasPrefix(s, p)
  {
  }

  lemma CatalogLeads(o: string)
    requires HasPrefix(o, CatalogObject() + "\nendobj\n")
    ensures Ref(o, "/Pages ") == Some(2)
  {
    var pre, r, e := "<< /Type /Catalog ", "/Pages " + (Dec(2) + " 0 R"), " >>";
    assert r + e == "/Pages 2 0 R >>";
    assert pre + (r + e) == CatalogObject();
    hide Dec, CatalogObject;
    Assoc(pre, r, e);
    PrefixStays(o, pre + r, e, "\nendobj\n");
    RefFound(o, pre, "/Pages ", 2);
  }

  lemma PrefixStays(o: string, p: string, q: string, r: string)
    requires HasPrefix(o, p + q + r)
    ensures HasPrefix(o, p)
  {
    PrefixOfConcat(p, q);
    PrefixGrows(p + q, r, p);
    PrefixOfPrefix(o, p + q + r, p);
  }

  lemma PagesLead(o: string)
    requires HasPrefix(o, PagesObject() + "\nendobj\n")
    ensures Ref(o, "/Kids [") == Some(3)
  {
    var pre, r, e := "<< /Type /Pages ", "/Kids [" + (Dec(3) + " 0 R"), "] /Count 1 >>";
    assert r + e == "/Kids [3 0 R] /Count 1 >>";
    assert pre + (r + e) == PagesObject();
    hide Dec, PagesObject;
    Assoc(pre, r, e);
    PrefixStays(o, pre + r, e, "\nendobj\n");
    RefFound(o, pre, "/Kids [", 3);
  }

  lemma PageFrontHasNoC()
    ensures 'C' !in PageFront()
  {
    var a, b, c := "<< /Type /Page /Parent 2 0 R ", "/MediaBox [0 0 595 842] ", Resources();
    assert 'C' !in a;
    assert 'C' !in b;
    NoCInResources();
    hide Resources;
    assert PageFront() == a + (b + c);
  }

  lemma NoCInResources()
    ensures 'C' !in Resources()
  {
  }

  lemma PageText()
    ensures PageObject() == PageFront() + ("/Contents " + (Dec(5) + " 0 R")) + " >>"
  {
    var r := "/Contents " + (Dec(5) + " 0 R");
    assert r + " >>" == "/Contents 5 0 R >>";
    hide PageFront, Dec;
    Assoc(PageFront(), r, " >>");
  }

  lemma PageLeads(o: string)
    requires HasPrefix(o, PageObject() + "\nendobj\n")
    ensures Ref(o, "/Contents ") == Some(5)
  {
    PageText();
    PageFrontHasNoC();
    hide PageFront, PageObject, Dec;
    var front := PageFront() + ("/Contents " + (Dec(5) + " 0 R"));
    PrefixStays(o, front, " >>", "\nendobj\n");
    RefFound(o, PageFront(), "/Contents ", 5);
  }

  lemma TrailerLeads(n: nat, post: string)
    ensures var t := Trailer(n) + post;
            HasPrefix(t, "trailer\n") && Ref(t, "/Root ") == Some(1)
  {
    var h, k, e := "trailer\n<< /Size ", "/Root ", " >>\n";
    var pre, r := h + (Dec(n) + " "), k + (Dec(1) + " 0 R");
    assert 'R' !in pre by {
      assert AllDigits(Dec(n));
      hide Dec;
    }
    assert Trailer(n) == pre + r + e;
    PrefixOfConcat(pre + r, e);
    PrefixGrows(pre + r + e, post, pre + r);
    RefFound(Trailer(n) + post, pre, k, 1);
    assert HasPrefix(h, "trailer\n");
    PrefixGrows(h, Dec(n) + " ", "trailer\n");
    PrefixGrows(pre, r, "trailer\n");
    PrefixGrows(pre + r, e, "trailer\n");
    PrefixGrows(Trailer(n), post, "trailer\n");
  }

  lemma RootFound(objs: seq<string>, file: string)
    requires objs != [] && OffsetsFit(objs) && file == Layout(objs)
    ensures Root(file) == Some(1)
  {
    hide Layout, StartXref, TableAt, EntryOffset, Body, Entries, Trailer, FreeEntry, XrefHead, Tail, HasPrefix, Ref;
    var n, body, es := |objs| + 1, Body(objs, |objs|), Entries(objs, |objs|);
    TableLeads(objs, 1, file, body);
    LayoutCuts(objs, body, es, |body|, file);
    EntriesLaidOut(objs, |objs|, 0);
    FreeEntryWidth();
    TrailerLeads(n, Tail(|body|));
    var front := body + XrefHead(n) + FreeEntry() + es;
    Assoc(front, Trailer(n), Tail(|body|));
    PrefixOfConcat(front, Trailer(n) + Tail(|body|));
  }

  lemma FreeEntryWidth()
    ensures |FreeEntry()| == 20
  {
  }

  /** The references lead from the trailer to the content stream. */
  lemma ContentsFound(objs: seq<string>, file: string)
    requires |objs| == 5 && OffsetsFit(objs) && file == Layout(objs)
    requires objs[0] == CatalogObject() && objs[1] == PagesObject() && objs[2] == PageObject()
    ensures FirstContents(file) == Some(5)
  {
    hide Root, Ref, ReadObject, Layout, OffsetsFit, CatalogObject, PagesObject, PageObject;
    RootFound(objs, file);
    ObjectFound(objs, 1, file);
    ObjectFound(objs, 2, file);
    ObjectFound(objs, 3, file);
    CatalogLeads(ReadObject(file, 1).value);
    PagesLead(ReadObject(file, 2).value);
    PageLeads(ReadObject(file, 3).value);
  }

  lemma PageFound(objs: seq<string>, content: string, file: string)
    requires |objs| == 5 && objs[4] == StreamObject(content)
    requires objs[0] == CatalogObject() && objs[1] == PagesObject() && objs[2] == PageObject()
    requires OffsetsFit(objs) && file == Layout(objs)
    ensures ReadPage(file) == ReadContent(content)
  {
    hide ReadObject, ReadStream, StreamObject, Layout, ReadContent, FirstContents, OffsetsFit;
    hide CatalogObject, PagesObject, PageObject, HasPrefix;
    ContentsFound(objs, file);
    ObjectFound(objs, 5, file);
    StreamFound(content, ReadObject(file, 5).value);
  }

  /** Main result: from the bytes of the file alone, a reader recovers every line
      of text, each rune outside ASCII and each invalid byte as one '?', and
      end-of-line markers normalised. No line content and no size is excluded. */
  lemma PageRoundTrip(lines: seq<string>)
    ensures ReadPage(Layout(Objects(lines))) == Some(ShownFrom(lines, 0))
  {
    InvoiceOffsetsFit(lines);
    PageFound(Objects(lines), Content(lines), Layout(Objects(lines)));
    ContentRead(lines);
  }
}
