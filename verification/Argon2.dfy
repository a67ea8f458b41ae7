/** The encoded password hash of api/internal/auth/argon2.go: its printer, its
    parser, and the unpadded base64 both rest on. Key derivation is a parameter;
    None stands for parameters the library refuses by panicking. */
module Argon2 {
  import opened Text

  newtype Byte = n: int | 0 <= n < 256
  type Bytes = seq<Byte>

  // ---- unpadded base64, sections 3.2 and 4 of RFC 4648 ----

  newtype Sextet = n: int | 0 <= n < 64

  function Symbol(v: Sextet): char {
    if v < 26 then 'A' + (v as int) as char
    else if v < 52 then 'a' + (v as int - 26) as char
    else if v < 62 then '0' + (v as int - 52) as char
    else if v == 62 then '+' else '/'
  }

  function SextetOf(c: char): Option<Sextet> {
    if 'A' <= c <= 'Z' then Some((c as int - 'A' as int) as Sextet)
    else if 'a' <= c <= 'z' then Some((c as int - 'a' as int + 26) as Sextet)
    else if '0' <= c <= '9' then Some((c as int - '0' as int + 52) as Sextet)
    else if c == '+' then Some(62)
    else if c == '/' then Some(63)
    else None
  }

  /** The four sextets of three bytes. */
  function S0(a: Byte): Sextet {
    (a as int / 4) as Sextet
  }

  function S1(a: Byte, b: Byte): Sextet {
    (a as int % 4 * 16 + b as int / 16) as Sextet
  }

  function S2(b: Byte, c: Byte): Sextet {
    (b as int % 16 * 4 + c as int / 64) as Sextet
  }

  function S3(c: Byte): Sextet {
    (c as int % 64) as Sextet
  }

  function Encode(bs: Bytes): string {
    if bs == [] then []
    else if |bs| == 1 then [Symbol(S0(bs[0])), Symbol(S1(bs[0], 0))]
    else if |bs| == 2 then [Symbol(S0(bs[0])), Symbol(S1(bs[0], bs[1])), Symbol(S2(bs[1], 0))]
    else
      [Symbol(S0(bs[0])), Symbol(S1(bs[0], bs[1])), Symbol(S2(bs[1], bs[2])), Symbol(S3(bs[2]))] + Encode(bs[3..])
  }

  /** The sextets of a text; line ends are skipped wherever they stand. */
  function Sextets(s: string): Option<seq<Sextet>> {
    if s == [] then Some([])
    else if s[0] == '\r' || s[0] == '\n' then Sextets(s[1..])
    else
      var v, rest := SextetOf(s[0]), Sextets(s[1..]);
      if v.None? || rest.None? then None else Some([v.value] + rest.value)
  }

  /** Groups of four; the unused low bits of a short last group are not looked
      at, and one sextet alone is an error. */
  function Group(vs: seq<Sextet>): Option<Bytes> {
    if vs == [] then Some([])
    else if |vs| == 1 then None
    else if |vs| == 2 then Some([B0(vs[0], vs[1])])
    else if |vs| == 3 then Some([B0(vs[0], vs[1]), B1(vs[1], vs[2])])
    else
      var rest := Group(vs[4..]);
      if rest.None? then None else Some([B0(vs[0], vs[1]), B1(vs[1], vs[2]), B2(vs[2], vs[3])] + rest.value)
  }

  /** The three bytes of four sextets. */
  function B0(u: Sextet, v: Sextet): Byte {
    (u as int * 4 + v as int / 16) as Byte
  }

  function B1(v: Sextet, w: Sextet): Byte {
    (v as int % 16 * 16 + w as int / 4) as Byte
  }

  function B2(w: Sextet, x: Sextet): Byte {
    (w as int % 4 * 64 + x as int) as Byte
  }

  function Decode(s: string): Option<Bytes> {
    var vs := Sextets(s);
    if vs.None? then None else Group(vs.value)
  }

  /** The alphabet, in the order of RFC 4648, table 1. */
  lemma Alphabet(v: Sextet)
    ensures Symbol(v) ==
            ("ABCDEFGHIJKLMNOPQRSTUVWXYZ" + "abcdefghijklmnopqrstuvwxyz" + "0123456789" + "+/")[v]
  {
    var upper, lower, digits := "ABCDEFGHIJKLMNOPQRSTUVWXYZ", "abcdefghijklmnopqrstuvwxyz", "0123456789";
    if v < 26 {
      assert Symbol(v) == upper[v];
    } else if v < 52 {
      assert Symbol(v) == lower[v as int - 26];
    } else if v < 62 {
      assert Symbol(v) == digits[v as int - 52];
    } else {
      assert Symbol(v) == "+/"[v as int - 62];
    }
  }

  /** Three bytes and their four sextets are one number of 24 bits, the first byte
      and the first sextet being the highest; a short group is filled with zeros. */
  lemma GroupValue(a: Byte, b: Byte, c: Byte)
    ensures S0(a) as int * 0x40000 + S1(a, b) as int * 0x1000 + S2(b, c) as int * 0x40 + S3(c) as int
            == a as int * 0x10000 + b as int * 0x100 + c as int
    ensures Encode([a, b, c]) == [Symbol(S0(a)), Symbol(S1(a, b)), Symbol(S2(b, c)), Symbol(S3(c))]
    ensures Encode([a, b]) == [Symbol(S0(a)), Symbol(S1(a, b)), Symbol(S2(b, 0))]
    ensures Encode([a]) == [Symbol(S0(a)), Symbol(S1(a, 0))]
  {
    assert [a, b, c][3..] == [];
    hide Symbol;
  }

  /** Groups are encoded one after the other. */
  lemma GroupFirst(a: Byte, b: Byte, c: Byte, rest: Bytes)
    ensures Encode([a, b, c] + rest) == Encode([a, b, c]) + Encode(rest)
  {
    assert ([a, b, c] + rest)[3..] == rest && [a, b, c][3..] == [];
    hide Symbol;
  }

  lemma SymbolRead(v: Sextet)
    ensures SextetOf(Symbol(v)) == Some(v)
    ensures Symbol(v) != '\r' && Symbol(v) != '\n' && Symbol(v) != '$'
  {
  }

  function EncodedSextets(bs: Bytes): (vs: seq<Sextet>)
    ensures bs == [] <==> vs == []
    ensures |vs| % 4 != 1
  {
    if bs == [] then []
    else if |bs| == 1 then [S0(bs[0]), S1(bs[0], 0)]
    else if |bs| == 2 then [S0(bs[0]), S1(bs[0], bs[1]), S2(bs[1], 0)]
    else
      var rest := EncodedSextets(bs[3..]);
      Four(bs[0], bs[1], bs[2]) + rest
  }

  function Four(a: Byte, b: Byte, c: Byte): (vs: seq<Sextet>)
    ensures |vs| == 4
  {
    [S0(a), S1(a, b), S2(b, c), S3(c)]
  }

  lemma {:induction false} ReadSymbols(vs: seq<Sextet>, s: string)
    requires |s| == |vs| && forall i :: 0 <= i < |s| ==> s[i] == Symbol(vs[i])
    ensures Sextets(s) == Some(vs)
    ensures '$' !in s
  {
    if s != [] {
      SymbolRead(vs[0]);
      ReadSymbols(vs[1..], s[1..]);
      assert vs == [vs[0]] + vs[1..] && s == [s[0]] + s[1..];
    }
  }

  lemma {:induction false} EncodePrints(bs: Bytes)
    ensures var vs := EncodedSextets(bs);
            |Encode(bs)| == |vs| && forall i :: 0 <= i < |vs| ==> Encode(bs)[i] == Symbol(vs[i])
  {
    if |bs| >= 3 {
      EncodePrints(bs[3..]);
      var vs, rest := EncodedSextets(bs), EncodedSextets(bs[3..]);
      assert forall i :: 4 <= i < |vs| ==> vs[i] == rest[i - 4] && Encode(bs)[i] == Encode(bs[3..])[i - 4];
    }
  }

  lemma Bits(a: Byte, b: Byte, c: Byte)
    ensures B0(S0(a), S1(a, b)) == a && B1(S1(a, b), S2(b, c)) == b && B2(S2(b, c), S3(c)) == c
  {
  }

  lemma GroupFour(a: Sextet, b: Sextet, c: Sextet, d: Sextet, rest: seq<Sextet>)
    ensures Group([a, b, c, d] + rest) ==
            if Group(rest).None? then None else Some([B0(a, b), B1(b, c), B2(c, d)] + Group(rest).value)
  {
    hide B0, B1, B2;
    assert ([a, b, c, d] + rest)[4..] == rest;
  }

  lemma GroupOne(a: Byte)
    ensures Group([S0(a), S1(a, 0)]) == Some([a])
  {
    hide S0, S1, S2, S3, B0, B1, B2;
    Bits(a, 0, 0);
    assert [S0(a), S1(a, 0)][0] == S0(a) && [S0(a), S1(a, 0)][1] == S1(a, 0);
  }

  lemma GroupTwo(a: Byte, b: Byte)
    ensures Group([S0(a), S1(a, b), S2(b, 0)]) == Some([a, b])
  {
    hide S0, S1, S2, S3, B0, B1, B2;
    Bits(a, b, 0);
  }

  lemma {:induction false} GroupsBack(bs: Bytes)
    ensures Group(EncodedSextets(bs)) == Some(bs)
  {
    hide S0, S1, S2, S3, B0, B1, B2;
    if bs == [] {
    } else if |bs| == 1 {
      GroupOne(bs[0]);
      assert bs == [bs[0]];
    } else if |bs| == 2 {
      GroupTwo(bs[0], bs[1]);
      assert bs == [bs[0], bs[1]];
    } else {
      GroupsBack(bs[3..]);
      Bits(bs[0], bs[1], bs[2]);
      GroupFour(S0(bs[0]), S1(bs[0], bs[1]), S2(bs[1], bs[2]), S3(bs[2]), EncodedSextets(bs[3..]));
      assert bs == [bs[0], bs[1], bs[2]] + bs[3..];
    }
  }

  /** Decoding what was encoded gives it back, and the text never holds the
      separator of the encoded hash. */
  lemma Base64RoundTrip(bs: Bytes)
    ensures Decode(Encode(bs)) == Some(bs) && '$' !in Encode(bs)
  {
    EncodePrints(bs);
    ReadSymbols(EncodedSextets(bs), Encode(bs));
    GroupsBack(bs);
  }

  function WithoutLineEnds(s: string): string {
    if s == [] then [] else (if s[0] == '\r' || s[0] == '\n' then [] else [s[0]]) + WithoutLineEnds(s[1..])
  }

  /** The texts the decoder takes: line ends aside, alphabet symbols only, and
      their number does not leave one over after groups of four. */
  lemma {:induction false} DecodesIff(s: string)
    ensures Decode(s).Some? <==>
            (forall c :: c in WithoutLineEnds(s) ==> SextetOf(c).Some?) && |WithoutLineEnds(s)| % 4 != 1
  {
    SextetsIff(s);
    if Sextets(s).Some? {
      GroupIff(Sextets(s).value);
    }
  }

  lemma {:induction false} SextetsIff(s: string)
    ensures Sextets(s).Some? <==> forall c :: c in WithoutLineEnds(s) ==> SextetOf(c).Some?
    ensures Sextets(s).Some? ==> |Sextets(s).value| == |WithoutLineEnds(s)|
  {
    if s != [] {
      SextetsIff(s[1..]);
      var rest := WithoutLineEnds(s[1..]);
      if s[0] != '\r' && s[0] != '\n' {
        assert WithoutLineEnds(s) == [s[0]] + rest;
        assert forall c :: c in [s[0]] + rest <==> c == s[0] || c in rest;
      } else {
        assert WithoutLineEnds(s) == rest;
      }
    }
  }

  lemma {:induction false} GroupIff(vs: seq<Sextet>)
    ensures Group(vs).Some? <==> |vs| % 4 != 1
  {
    hide B0, B1, B2;
    if |vs| >= 4 {
      GroupIff(vs[4..]);
      assert |vs| % 4 == (|vs| - 4) % 4;
    }
  }

  // ---- fmt.Sscanf, as far as the two formats need it ----

  predicate IsBlank(c: char) {
    c == ' ' || c == '\t' || c == '\r' || c as int == 11 || c as int == 12
  }

  function SkipBlanks(s: string): string {
    if s != [] && IsBlank(s[0]) then SkipBlanks(s[1..]) else s
  }

  /** %d into an unsigned target. */
  function ScanUint(s: string, max: nat): Scanned<nat> {
    var n := ScanNat(SkipBlanks(s));
    if n.Stuck? || n.value > max then Stuck else n
  }

  /** %d into an int, for which a sign is allowed. */
  function ScanInt(s: string): Scanned<int> {
    var t := SkipBlanks(s);
    var negative := t != [] && t[0] == '-';
    var n := ScanNat(if t != [] && (t[0] == '-' || t[0] == '+') then t[1..] else t);
    if n.Stuck? then Stuck
    else
      var v: int := if negative then 0 - n.value else n.value;
      if -MAX_INT - 1 <= v <= MAX_INT then Scanned(v, n.rest) else Stuck
  }

  /** The rest after a literal text, which must be there. */
  function After(s: string, literal: string): Option<string> {
    if HasPrefix(s, literal) then Some(s[|literal|..]) else None
  }

  const MAX_INT := 0x7FFF_FFFF_FFFF_FFFF
  const MAX_UINT32 := 0xFFFF_FFFF
  const MAX_UINT8 := 0xFF

  datatype Params = Params(memory: nat, iterations: nat, parallelism: nat)

  const DEFAULT := Params(64 * 1024, 3, 2)
  const KEY_LENGTH := 32
  const VERSION := 19

  predicate InRange(p: Params) {
    p.memory <= MAX_UINT32 && p.iterations <= MAX_UINT32 && p.parallelism <= MAX_UINT8
  }

  /** "v=%d" */
  function ScanVersion(s: string): Option<int> {
    var t := After(s, "v=");
    if t.None? then None
    else
      var v := ScanInt(t.value);
      if v.Stuck? then None else Some(v.value)
  }

  function ScanField(s: string, literal: string, max: nat): Scanned<nat> {
    var t := After(s, literal);
    if t.None? then Stuck else ScanUint(t.value, max)
  }

  /** "m=%d,t=%d,p=%d"; what follows is not looked at. */
  function ScanParams(s: string): Option<Params> {
    var m := ScanField(s, "m=", MAX_UINT32);
    if m.Stuck? then None
    else
      var t := ScanField(m.rest, ",t=", MAX_UINT32);
      if t.Stuck? then None
      else
        var p := ScanField(t.rest, ",p=", MAX_UINT8);
        if p.Stuck? then None else Some(Params(m.value, t.value, p.value))
  }

  // ---- the encoded hash ----

  datatype Hash = Hash(params: Params, salt: Bytes, key: Bytes)

  /** The parts with the separator between them. */
  function JoinWith(parts: seq<string>, sep: char): string {
    if parts == [] then [] else if |parts| == 1 then parts[0] else parts[0] + [sep] + JoinWith(parts[1..], sep)
  }

  function VersionPart(version: nat): string {
    "v=" + Dec(version)
  }

  function ParamsThen(p: Params, rest: string): string {
    "m=" + (Dec(p.memory) + (",t=" + (Dec(p.iterations) + (",p=" + (Dec(p.parallelism) + rest)))))
  }

  function Kind(): string {
    "argon2id"
  }

  function Parts(version: nat, h: Hash, junk: string): seq<string> {
    ["", Kind(), VersionPart(version), ParamsThen(h.params, junk), Encode(h.salt), Encode(h.key)]
  }

  function Format(version: nat, h: Hash): string {
    JoinWith(Parts(version, h, ""), '$')
  }

  function Parse(encoded: string): Option<Hash> {
    ParseParts(Split(encoded, '$'))
  }

  function ParseParts(parts: seq<string>): Option<Hash> {
    if |parts| != 6 || parts[1] != Kind() then None
    else ParseFields(parts[2], parts[3], parts[4], parts[5])
  }

  function ParseFields(version: string, params: string, salt: string, key: string): Option<Hash> {
    if ScanVersion(version).None? then None
    else
      var p, s, k := ScanParams(params), Decode(salt), Decode(key);
      if p.None? || s.None? || k.None? then None else Some(Hash(p.value, s.value, k.value))
  }

  /** argon2.IDKey: password, salt, parameters and key length to a key. */
  type Derive = (string, Bytes, Params, nat) -> Option<Bytes>

  datatype Verdict = InvalidHash | Panics | Checked(ok: bool)

  function HashPassword(derive: Derive, password: string, salt: Bytes): Option<string> {
    var key := derive(password, salt, DEFAULT, KEY_LENGTH);
    if key.None? then None else Some(Format(VERSION, Hash(DEFAULT, salt, key.value)))
  }

  /** The printed form of every hash. */
  lemma PrintedAs(version: nat, h: Hash)
    ensures Format(version, h) ==
            "$argon2id$v=" + (Dec(version) + ("$m=" + (Dec(h.params.memory) + (",t=" + (Dec(h.params.iterations)
            + (",p=" + (Dec(h.params.parallelism) + ("$" + (Encode(h.salt) + ("$" + Encode(h.key)))))))))))
  {
    hide Dec, Encode;
    var v, m, t, p := Dec(version), Dec(h.params.memory), Dec(h.params.iterations), Dec(h.params.parallelism);
    var rest := "$" + (Encode(h.salt) + ("$" + Encode(h.key)));
    SixJoined(["", Kind(), VersionPart(version), ParamsThen(h.params, ""), Encode(h.salt), Encode(h.key)]);
    assert p + "" == p;
    HeadAssoc(v, "m=" + (m + (",t=" + (t + (",p=" + p)))), rest);
    FieldsAssoc(m, t, p, rest);
  }

  lemma SixJoined(parts: seq<string>)
    requires |parts| == 6
    ensures JoinWith(parts, '$') == parts[0] + ("$" + (parts[1] + ("$" + (parts[2] + ("$" + (parts[3] + ("$"
                                    + (parts[4] + ("$" + parts[5])))))))))
  {
    OneJoined(parts);
    OneJoined(parts[1..]);
    OneJoined(parts[2..]);
    OneJoined(parts[3..]);
    OneJoined(parts[4..]);
    assert JoinWith(parts[5..], '$') == parts[5];
    hide JoinWith;
    assert parts[1..][1..] == parts[2..] && parts[2..][1..] == parts[3..] && parts[3..][1..] == parts[4..];
    assert parts[4..][1..] == parts[5..];
  }

  lemma OneJoined(parts: seq<string>)
    requires |parts| > 1
    ensures JoinWith(parts, '$') == parts[0] + ("$" + JoinWith(parts[1..], '$'))
  {
    Assoc(parts[0], "$", JoinWith(parts[1..], '$'));
  }

  lemma HeadAssoc(v: string, fields: string, rest: string)
    ensures "" + ("$" + ("argon2id" + ("$" + (("v=" + v) + ("$" + (fields + rest))))))
            == "$argon2id$v=" + (v + ("$" + (fields + rest)))
  {
    Assoc("v=", v, "$" + (fields + rest));
    var tail := v + ("$" + (fields + rest));
    Assoc("$", "v=", tail);
    Assoc("argon2id", "$v=", tail);
    Assoc("$", "argon2id$v=", tail);
    assert "$" + "v=" == "$v=" && "argon2id" + "$v=" == "argon2id$v=" && "$" + "argon2id$v=" == "$argon2id$v=";
    assert "" + ("$argon2id$v=" + tail) == "$argon2id$v=" + tail;
  }

  lemma FieldsAssoc(m: string, t: string, p: string, rest: string)
    ensures "$" + (("m=" + (m + (",t=" + (t + (",p=" + p))))) + rest)
            == "$m=" + (m + (",t=" + (t + (",p=" + (p + rest)))))
  {
    Assoc(",p=", p, rest);
    Assoc(t, ",p=" + p, rest);
    Assoc(",t=", t + (",p=" + p), rest);
    Assoc(m, ",t=" + (t + (",p=" + p)), rest);
    Assoc("m=", m + (",t=" + (t + (",p=" + p))), rest);
    Assoc("$", "m=", m + (",t=" + (t + (",p=" + (p + rest)))));
    assert "$" + "m=" == "$m=";
  }

  /** What is stored for a password: 64 MiB, three passes, two lanes, a key of 32
      bytes, and the prefix that says so. */
  lemma HashPrinted(derive: Derive, password: string, salt: Bytes)
    ensures var key := derive(password, salt, Params(65536, 3, 2), 32);
            && (HashPassword(derive, password, salt).None? <==> key.None?)
            && (key.Some? ==> HashPassword(derive, password, salt) ==
                              Some("$argon2id$v=19$m=65536,t=3,p=2$" + (Encode(salt) + ("$" + Encode(key.value)))))
  {
    var key := derive(password, salt, Params(65536, 3, 2), 32);
    if key.Some? {
      hide Encode, Format;
      PrintedAs(19, Hash(Params(65536, 3, 2), salt, key.value));
      PrefixText(Encode(salt) + ("$" + Encode(key.value)));
    }
  }

  lemma PrefixText(rest: string)
    ensures "$argon2id$v=" + (Dec(19) + ("$m=" + (Dec(65536) + (",t=" + (Dec(3) + (",p=" + (Dec(2) + ("$" + rest))))))))
            == "$argon2id$v=19$m=65536,t=3,p=2$" + rest
  {
    DefaultNumbers();
    hide Dec;
    Assoc("2", "$", rest);
    Assoc(",p=", "2$", rest);
    Assoc("3", ",p=2$", rest);
    Assoc(",t=", "3,p=2$", rest);
    assert "2" + "$" == "2$" && ",p=" + "2$" == ",p=2$" && "3" + ",p=2$" == "3,p=2$";
    assert ",t=" + "3,p=2$" == ",t=3,p=2$";
    MemoryText(",t=3,p=2$", rest);
  }

  lemma MemoryText(fields: string, rest: string)
    requires fields == ",t=3,p=2$"
    ensures "$argon2id$v=" + ("19" + ("$m=" + ("65536" + (fields + rest)))) == "$argon2id$v=19$m=65536,t=3,p=2$" + rest
  {
    Assoc("65536", fields, rest);
    Assoc("$m=", "65536" + fields, rest);
    Assoc("19", "$m=" + ("65536" + fields), rest);
    Assoc("$argon2id$v=", "19" + ("$m=" + ("65536" + fields)), rest);
    assert "$argon2id$v=" + ("19" + ("$m=" + ("65536" + ",t=3,p=2$"))) == "$argon2id$v=19$m=65536,t=3,p=2$";
  }

  lemma DefaultNumbers()
    ensures Dec(19) == "19" && Dec(3) == "3" && Dec(2) == "2" && Dec(65536) == "65536"
  {
    assert Dec(655) == "655";
  }

  function VerifyPassword(derive: Derive, password: string, encoded: string): Verdict {
    var h := Parse(encoded);
    if h.None? then InvalidHash else Compare(derive, password, h.value)
  }

  function Compare(derive: Derive, password: string, h: Hash): Verdict {
    var got := derive(password, h.salt, h.params, |h.key| % (MAX_UINT32 + 1));
    if got.None? then Panics else Checked(got.value == h.key)
  }

  // ---- round trips ----

  lemma {:induction false} SplitOfJoin(parts: seq<string>, sep: char)
    requires parts != [] && forall i :: 0 <= i < |parts| ==> sep !in parts[i]
    ensures Split(JoinWith(parts, sep), sep) == parts
  {
    if |parts| == 1 {
      SplitNoSeparator(parts[0], sep);
    } else {
      SplitAtSeparator(parts[0], sep, JoinWith(parts[1..], sep));
      SplitOfJoin(parts[1..], sep);
      assert parts == [parts[0]] + parts[1..];
    }
  }

  lemma ScanVersionPart(version: nat)
    requires version <= MAX_INT
    ensures ScanVersion(VersionPart(version)) == Some(version)
  {
    PrefixOfConcat("v=", Dec(version));
    assert IsDigit(Dec(version)[0]);
    ScanDec(version, "");
    assert Dec(version) + "" == Dec(version);
  }

  lemma ScanFieldRead(literal: string, n: nat, rest: string, max: nat)
    requires n <= max && (rest == [] || !IsDigit(rest[0]))
    ensures ScanField(literal + (Dec(n) + rest), literal, max) == Scanned(n, rest)
  {
    var t := Dec(n) + rest;
    PrefixOfConcat(literal, t);
    assert IsDigit(t[0]);
    ScanDec(n, rest);
  }

  lemma ScanParamsThen(p: Params, junk: string)
    requires InRange(p) && (junk == [] || !IsDigit(junk[0]))
    ensures ScanParams(ParamsThen(p, junk)) == Some(p)
  {
    var r2 := ",p=" + (Dec(p.parallelism) + junk);
    var r1 := ",t=" + (Dec(p.iterations) + r2);
    ScanFieldRead("m=", p.memory, r1, MAX_UINT32);
    ScanFieldRead(",t=", p.iterations, r2, MAX_UINT32);
    ScanFieldRead(",p=", p.parallelism, junk, MAX_UINT8);
    hide ScanField, Dec;
    assert ParamsThen(p, junk) == "m=" + (Dec(p.memory) + r1);
  }

  lemma PartsClean(version: nat, p: Params, junk: string)
    requires '$' !in junk
    ensures '$' !in VersionPart(version) && '$' !in ParamsThen(p, junk)
  {
    assert forall n: nat :: '$' !in Dec(n) by {
      forall n: nat
        ensures '$' !in Dec(n)
      {
        assert AllDigits(Dec(n));
      }
    }
    hide Dec;
  }

  lemma FieldsRead(version: nat, h: Hash, junk: string)
    requires version <= MAX_INT && InRange(h.params) && (junk == [] || !IsDigit(junk[0]))
    ensures ParseFields(VersionPart(version), ParamsThen(h.params, junk), Encode(h.salt), Encode(h.key)) == Some(h)
  {
    Base64RoundTrip(h.salt);
    Base64RoundTrip(h.key);
    ScanVersionPart(version);
    ScanParamsThen(h.params, junk);
    hide VersionPart, ParamsThen, Encode, Decode, ScanVersion, ScanParams, InRange;
  }

  lemma PartsRead(version: nat, h: Hash, junk: string)
    requires version <= MAX_INT && InRange(h.params) && (junk == [] || !IsDigit(junk[0]))
    ensures ParseParts(Parts(version, h, junk)) == Some(h)
  {
    FieldsRead(version, h, junk);
    hide VersionPart, ParamsThen, Encode, ParseFields, ParseParts, InRange, IsDigit, Kind;
    SixFields(VersionPart(version), ParamsThen(h.params, junk), Encode(h.salt), Encode(h.key));
  }

  lemma SixFields(version: string, params: string, salt: string, key: string)
    ensures ParseParts(["", Kind(), version, params, salt, key]) == ParseFields(version, params, salt, key)
  {
    hide Kind, ParseFields;
  }

  lemma PartsFree(version: nat, h: Hash, junk: string)
    requires '$' !in junk
    ensures forall i :: 0 <= i < 6 ==> '$' !in Parts(version, h, junk)[i]
  {
    PartsClean(version, h.params, junk);
    Base64RoundTrip(h.salt);
    Base64RoundTrip(h.key);
    hide VersionPart, ParamsThen, Encode, Decode;
  }

  /** The encoded string gives back the parameters, the salt and the key, for
      every version, salt and key and all parameters in range; anything without
      a `$` that does not continue the last number may follow the parameters. */
  lemma ParseOfFormat(version: nat, h: Hash, junk: string)
    requires version <= MAX_INT && InRange(h.params)
    requires '$' !in junk && (junk == [] || !IsDigit(junk[0]))
    ensures Parse(JoinWith(Parts(version, h, junk), '$')) == Some(h)
  {
    PartsRead(version, h, junk);
    PartsFree(version, h, junk);
    assert |Parts(version, h, junk)| == 6;
    hide Parts, ParseParts;
    SplitOfJoin(Parts(version, h, junk), '$');
  }

  /** Main result: with any parameters in range, a password is accepted for an
      encoded key exactly when it derives that key; the version is not compared. */
  lemma AcceptedIffSameKey(derive: Derive, version: nat, h: Hash, password: string)
    requires version <= MAX_INT && InRange(h.params) && |h.key| <= MAX_UINT32
    ensures var got := derive(password, h.salt, h.params, |h.key|);
            VerifyPassword(derive, password, Format(version, h)) ==
            if got.None? then Panics else Checked(got == Some(h.key))
  {
    ParseOfFormat(version, h, []);
    hide Parse, Parts, JoinWith, Compare;
    CompareIff(derive, password, h);
  }

  lemma CompareIff(derive: Derive, password: string, h: Hash)
    requires |h.key| <= MAX_UINT32
    ensures var got := derive(password, h.salt, h.params, |h.key|);
            Compare(derive, password, h) == if got.None? then Panics else Checked(got == Some(h.key))
  {
    assert |h.key| % (MAX_UINT32 + 1) == |h.key|;
  }

  /** Hashing and then verifying: q is accepted exactly when it derives the key
      that p derived, so p itself always is. */
  lemma HashThenVerify(derive: Derive, p: string, salt: Bytes, q: string)
    requires var key := derive(p, salt, DEFAULT, KEY_LENGTH); key.Some? && |key.value| == KEY_LENGTH
    ensures var stored := HashPassword(derive, p, salt);
            && stored.Some?
            && VerifyPassword(derive, p, stored.value) == Checked(true)
            && (VerifyPassword(derive, q, stored.value) == Checked(true) <==>
                  derive(q, salt, DEFAULT, KEY_LENGTH) == derive(p, salt, DEFAULT, KEY_LENGTH))
  {
    var key := derive(p, salt, DEFAULT, KEY_LENGTH).value;
    AcceptedIffSameKey(derive, VERSION, Hash(DEFAULT, salt, key), p);
    AcceptedIffSameKey(derive, VERSION, Hash(DEFAULT, salt, key), q);
  }

  /** A different salt makes a different string. */
  lemma SaltShows(derive: Derive, p: string, q: string, salt: Bytes, other: Bytes)
    requires HashPassword(derive, p, salt).Some? && HashPassword(derive, p, salt) == HashPassword(derive, q, other)
    ensures salt == other && derive(p, salt, DEFAULT, KEY_LENGTH) == derive(q, other, DEFAULT, KEY_LENGTH)
  {
    var a := Hash(DEFAULT, salt, derive(p, salt, DEFAULT, KEY_LENGTH).value);
    var b := Hash(DEFAULT, other, derive(q, other, DEFAULT, KEY_LENGTH).value);
    ParseOfFormat(VERSION, a, []);
    ParseOfFormat(VERSION, b, []);
    hide Parse, Parts, JoinWith;
  }

  /** A derivation that never panics meets the requirements of the lemmas above. */
  lemma SomeHashExists(password: string, salt: Bytes)
    ensures HashPassword(ZeroKey(), password, salt) == Some(Format(VERSION, Hash(DEFAULT, salt, Zeros(KEY_LENGTH))))
  {
    hide Format, Zeros;
  }

  function Zeros(length: nat): (key: Bytes)
    ensures |key| == length
  {
    seq(length, _ => 0)
  }

  function ZeroKey(): Derive {
    (password: string, salt: Bytes, params: Params, length: nat) => Some(Zeros(length))
  }
}
