/**
 Base64 with the URL-safe alphabet (RFC 4648, sections 4 and 5), with the padding that
 `base64.urlsafe_b64encode` writes and the permissive reading that
 `base64.urlsafe_b64decode` does: characters outside the alphabet are skipped, `+` and `/`
 are read like `-` and `_`, and the first complete pad ends the text.
 */
module Base64Url {
  import opened Basics

  type Octet = n: int | 0 <= n < 256

  type Sextet = n: int | 0 <= n < 64

  function Symbol(v: Sextet): char {
    if v < 26 then ('A' as int + v) as char
    else if v < 52 then ('a' as int + v - 26) as char
    else if v < 62 then ('0' as int + v - 52) as char
    else if v == 62 then '-' else '_'
  }

  function SextetOf(c: char): Option<Sextet> {
    if 'A' <= c <= 'Z' then Some(c as int - 'A' as int)
    else if 'a' <= c <= 'z' then Some(c as int - 'a' as int + 26)
    else if '0' <= c <= '9' then Some(c as int - '0' as int + 52)
    else if c == '-' || c == '+' then Some(62)
    else if c == '_' || c == '/' then Some(63)
    else None
  }

  /** The text without padding. */
  function Raw(b: seq<Octet>): string {
    if |b| == 0 then ""
    else if |b| == 1 then [Symbol(b[0] / 4), Symbol(b[0] % 4 * 16)]
    else if |b| == 2 then [Symbol(b[0] / 4), Symbol(b[0] % 4 * 16 + b[1] / 16), Symbol(b[1] % 16 * 4)]
    else
      [Symbol(b[0] / 4), Symbol(b[0] % 4 * 16 + b[1] / 16), Symbol(b[1] % 16 * 4 + b[2] / 64), Symbol(b[2] % 64)]
      + Raw(b[3..])
  }

  function Pads(n: nat): string { seq(n, i => '=') }

  /** The padded text: the length is rounded up to a multiple of four. */
  function Encode(b: seq<Octet>): string {
    Raw(b) + Pads((3 - |b| % 3) % 3)
  }

  /** Python's `rstrip("=")`. */
  function Strip(s: string): string {
    if s != "" && s[|s| - 1] == '=' then Strip(s[..|s| - 1]) else s
  }

  /**
   The decoder's automaton: `quad` sextets of the current group have been read, `left` holds
   the bits not yet written, `pads` counts the pad characters since the last symbol.
   */
  function Scan(s: string, quad: nat, left: nat, pads: nat): Option<seq<Octet>>
    requires quad <= 3
    requires quad == 1 ==> left < 64
    requires quad == 2 ==> left < 16
    requires quad == 3 ==> left < 4
  {
    if s == "" then
      if quad == 0 then Some([]) else None
    else if s[0] == '=' then
      if quad >= 2 && quad + pads + 1 >= 4 then Some([])
      else Scan(s[1..], quad, left, if quad >= 2 then pads + 1 else pads)
    else
      match SextetOf(s[0])
      case None => Scan(s[1..], quad, left, pads)
      case Some(v) =>
        if quad == 0 then Scan(s[1..], 1, v, 0)
        else if quad == 1 then Emit(left * 4 + v / 16, Scan(s[1..], 2, v % 16, 0))
        else if quad == 2 then Emit(left * 16 + v / 4, Scan(s[1..], 3, v % 4, 0))
        else Emit(left * 64 + v, Scan(s[1..], 0, 0, 0))
  }

  function Emit(b: Octet, rest: Option<seq<Octet>>): Option<seq<Octet>> {
    match rest
    case None => None
    case Some(tail) => Some([b] + tail)
  }

  /** `urlsafe_b64decode` on text: non-ASCII input is an error. */
  function Decode(s: string): Option<seq<Octet>> {
    if forall i :: 0 <= i < |s| ==> s[i] as int < 128 then Scan(s, 0, 0, 0) else None
  }

  lemma SymbolReadsBack(v: Sextet)
    ensures SextetOf(Symbol(v)) == Some(v) && Symbol(v) != '=' && Symbol(v) as int < 128
  {
  }

  /** Four characters for every three octets, rounded up. */
  lemma {:induction false} RawShape(b: seq<Octet>)
    ensures |Raw(b)| == (4 * |b| + 2) / 3
    ensures forall i :: 0 <= i < |Raw(b)| ==> Raw(b)[i] != '=' && Raw(b)[i] as int < 128
  {
    if |b| >= 3 {
      RawShape(b[3..]);
    }
  }

  lemma {:induction false} StripPads(s: string, n: nat)
    requires s == "" || s[|s| - 1] != '='
    ensures Strip(s + Pads(n)) == s
  {
    if n == 0 {
      assert s + Pads(0) == s;
    } else {
      assert (s + Pads(n))[..|s| + n - 1] == s + Pads(n - 1);
      StripPads(s, n - 1);
    }
  }

  /** Stripping forgets nothing: the pad count is a function of the stripped length (RFC 4648, section 3.2). */
  lemma PaddingRecovered(b: seq<Octet>)
    ensures Strip(Encode(b)) == Raw(b)
    ensures var t := Strip(Encode(b)); t + Pads(-|t| % 4) == Encode(b)
  {
    RawShape(b);
    StripPads(Raw(b), (3 - |b| % 3) % 3);
    PadCount(|b|);
  }

  lemma PadCount(n: nat)
    ensures -((4 * n + 2) / 3) % 4 == (3 - n % 3) % 3
  {
    var q, r := n / 3, n % 3;
    assert (4 * n + 2) / 3 == 4 * q + (4 * r + 2) / 3;
  }

  /** Reassembling the bits of a group. */
  lemma GroupBits(b0: Octet, b1: Octet, b2: Octet)
    ensures
      var v0, v1, v2, v3 := b0 / 4, b0 % 4 * 16 + b1 / 16, b1 % 16 * 4 + b2 / 64, b2 % 64;
      v0 * 4 + v1 / 16 == b0 && v1 % 16 * 16 + v2 / 4 == b1 && v2 % 4 * 64 + v3 == b2
  {
  }

  lemma ScanSymbol(v: Sextet, u: string, quad: nat, left: nat)
    requires quad <= 3
    requires quad == 1 ==> left < 64
    requires quad == 2 ==> left < 16
    requires quad == 3 ==> left < 4
    ensures Scan([Symbol(v)] + u, quad, left, 0) ==
      if quad == 0 then Scan(u, 1, v, 0)
      else if quad == 1 then Emit(left * 4 + v / 16, Scan(u, 2, v % 16, 0))
      else if quad == 2 then Emit(left * 16 + v / 4, Scan(u, 3, v % 4, 0))
      else Emit(left * 64 + v, Scan(u, 0, 0, 0))
  {
    SymbolReadsBack(v);
    assert ([Symbol(v)] + u)[1..] == u;
  }

  lemma ScanGroup(v0: Sextet, v1: Sextet, v2: Sextet, v3: Sextet, u: string)
    ensures
      Scan([Symbol(v0)] + ([Symbol(v1)] + ([Symbol(v2)] + ([Symbol(v3)] + u))), 0, 0, 0) ==
      Emit(v0 * 4 + v1 / 16, Emit(v1 % 16 * 16 + v2 / 4, Emit(v2 % 4 * 64 + v3, Scan(u, 0, 0, 0))))
  {
    var half := [Symbol(v2)] + ([Symbol(v3)] + u);
    ScanHalf(v2, v3, u, v1 % 16);
    ScanSymbol(v1, half, 1, v0);
    ScanSymbol(v0, [Symbol(v1)] + half, 0, 0);
  }

  lemma ScanHalf(v2: Sextet, v3: Sextet, u: string, left: nat)
    requires left < 16
    ensures Scan([Symbol(v2)] + ([Symbol(v3)] + u), 2, left, 0) ==
      Emit(left * 16 + v2 / 4, Emit(v2 % 4 * 64 + v3, Scan(u, 0, 0, 0)))
  {
    ScanSymbol(v3, u, 3, v2 % 4);
    ScanSymbol(v2, [Symbol(v3)] + u, 2, left);
  }

  lemma ScanLastOne(b: seq<Octet>)
    requires |b| == 1
    ensures Scan(Encode(b), 0, 0, 0) == Some(b)
  {
    var v0, v1 := b[0] / 4, b[0] % 4 * 16;
    assert Encode(b) == [Symbol(v0)] + ([Symbol(v1)] + ['=', '=']);
    ScanSymbol(v0, [Symbol(v1)] + ['=', '='], 0, 0);
    ScanSymbol(v1, ['=', '='], 1, v0);
    assert ['=', '='][1..] == ['='];
    assert Scan(['='], 2, v1 % 16, 1) == Some([]);
    assert [b[0]] + [] == b;
  }

  lemma ScanLastTwo(b: seq<Octet>)
    requires |b| == 2
    ensures Scan(Encode(b), 0, 0, 0) == Some(b)
  {
    GroupBits(b[0], b[1], 0);
    var v0, v1, v2 := b[0] / 4, b[0] % 4 * 16 + b[1] / 16, b[1] % 16 * 4;
    assert Encode(b) == [Symbol(v0)] + ([Symbol(v1)] + ([Symbol(v2)] + ['=']));
    ScanSymbol(v0, [Symbol(v1)] + ([Symbol(v2)] + ['=']), 0, 0);
    ScanSymbol(v1, [Symbol(v2)] + ['='], 1, v0);
    ScanSymbol(v2, ['='], 2, v1 % 16);
    assert Scan(['='], 3, v2 % 4, 0) == Some([]);
    assert [b[0]] + ([b[1]] + []) == b;
  }

  lemma ScanFirstGroup(b: seq<Octet>)
    requires |b| >= 3
    ensures Scan(Encode(b), 0, 0, 0) == Emit(b[0], Emit(b[1], Emit(b[2], Scan(Encode(b[3..]), 0, 0, 0))))
  {
    GroupBits(b[0], b[1], b[2]);
    var v0, v1, v2, v3 := b[0] / 4, b[0] % 4 * 16 + b[1] / 16, b[1] % 16 * 4 + b[2] / 64, b[2] % 64;
    var u := Encode(b[3..]);
    assert |b[3..]| % 3 == |b| % 3;
    assert Encode(b) == [Symbol(v0)] + ([Symbol(v1)] + ([Symbol(v2)] + ([Symbol(v3)] + u)));
    ScanGroup(v0, v1, v2, v3, u);
  }

  lemma EmitGroup(b: seq<Octet>)
    requires |b| >= 3
    ensures Emit(b[0], Emit(b[1], Emit(b[2], Some(b[3..])))) == Some(b)
  {
    assert [b[0]] + ([b[1]] + ([b[2]] + b[3..])) == b;
  }

  /** The decoder, started between groups, gives back every octet string. */
  lemma {:induction false} ScanEncoded(b: seq<Octet>)
    ensures Scan(Encode(b), 0, 0, 0) == Some(b)
  {
    if |b| == 0 {
      assert Encode(b) == "";
    } else if |b| == 1 {
      ScanLastOne(b);
    } else if |b| == 2 {
      ScanLastTwo(b);
    } else {
      ScanEncoded(b[3..]);
      ScanFirstGroup(b);
      EmitGroup(b);
    }
  }

  /** Encoding, stripping, padding again and decoding is the identity. */
  lemma StrippedRoundTrip(b: seq<Octet>)
    ensures var t := Strip(Encode(b)); Decode(t + Pads(-|t| % 4)) == Some(b)
  {
    PaddingRecovered(b);
    RawShape(b);
    ScanEncoded(b);
  }

  // ----- texts that were not encoded -----

  /** The alphabet: the encoder's own symbols, and the two of the other variant. */
  lemma SextetIff(c: char, v: Sextet)
    ensures SextetOf(c) == Some(v) <==> c == Symbol(v) || (c == '+' && v == 62) || (c == '/' && v == 63)
  {
  }

  lemma {:induction false} ScanSkips(a: string, c: char, b: string, quad: nat, left: nat, pads: nat)
    requires quad <= 3 && (quad == 1 ==> left < 64) && (quad == 2 ==> left < 16) && (quad == 3 ==> left < 4)
    requires c != '=' && SextetOf(c).None?
    ensures Scan(a + [c] + b, quad, left, pads) == Scan(a + b, quad, left, pads)
    decreases |a|, 1
  {
    if a == "" {
      assert (a + [c] + b)[1..] == b && a + b == b;
    } else {
      SkipsLater(a, c, b, quad, left, pads);
    }
  }

  lemma {:induction false} SkipsLater(a: string, c: char, b: string, quad: nat, left: nat, pads: nat)
    requires quad <= 3 && (quad == 1 ==> left < 64) && (quad == 2 ==> left < 16) && (quad == 3 ==> left < 4)
    requires c != '=' && SextetOf(c).None? && a != ""
    ensures Scan(a + [c] + b, quad, left, pads) == Scan(a + b, quad, left, pads)
    decreases |a|, 0
  {
    var s, t, u := a + [c] + b, a + b, a[1..];
    assert s[0] == a[0] == t[0] && s[1..] == u + [c] + b && t[1..] == u + b;
    if a[0] == '=' {
      ScanSkips(u, c, b, quad, left, if quad >= 2 then pads + 1 else pads);
    } else {
      match SextetOf(a[0])
      case None => ScanSkips(u, c, b, quad, left, pads);
      case Some(v) =>
        if quad == 0 { ScanSkips(u, c, b, 1, v, 0); }
        else if quad == 1 { ScanSkips(u, c, b, 2, v % 16, 0); }
        else if quad == 2 { ScanSkips(u, c, b, 3, v % 4, 0); }
        else { ScanSkips(u, c, b, 0, 0, 0); }
    }
  }

  /** A character outside the alphabet is passed over, unless it is not ASCII: then the text is refused. */
  lemma OthersAreSkipped(a: string, c: char, b: string)
    requires c != '=' && SextetOf(c).None?
    ensures Decode(a + [c] + b) == if c as int < 128 then Decode(a + b) else None
  {
    ScanSkips(a, c, b, 0, 0, 0);
    AsciiWith(a, c, b);
  }

  ghost predicate Ascii(s: string) { forall i :: 0 <= i < |s| ==> s[i] as int < 128 }

  lemma AsciiWith(a: string, c: char, b: string)
    ensures Ascii(a + [c] + b) <==> Ascii(a + b) && c as int < 128
  {
    var s, t := a + [c] + b, a + b;
    assert s[|a|] == c;
    if Ascii(s) {
      forall i | 0 <= i < |t| ensures t[i] as int < 128 { assert t[i] == s[if i < |a| then i else i + 1]; }
    }
    if Ascii(t) && c as int < 128 {
      forall i | 0 <= i < |s| ensures s[i] as int < 128 {
        if i != |a| { assert s[i] == t[if i < |a| then i else i - 1]; }
      }
    }
  }

  ghost predicate Symbols(t: string) { forall i :: 0 <= i < |t| ==> SextetOf(t[i]).Some? }

  lemma {:induction false} ScanPads(quad: nat, left: nat, pads: nat, n: nat)
    requires quad <= 3 && (quad == 1 ==> left < 64) && (quad == 2 ==> left < 16) && (quad == 3 ==> left < 4)
    requires quad >= 2 ==> quad + pads < 4
    ensures Scan(Pads(n), quad, left, pads).Some? <==> quad == 0 || (quad >= 2 && quad + pads + n >= 4)
    decreases n
  {
    if n > 0 {
      assert Pads(n)[1..] == Pads(n - 1);
      if quad < 2 { ScanPads(quad, left, pads, n - 1); }
      else if quad + pads + 1 < 4 { ScanPads(quad, left, pads + 1, n - 1); }
    }
  }

  /** Reading a symbol, and the bits that are left over then. */
  lemma ScanFirst(s: string, quad: nat, left: nat) returns (rest: nat)
    requires quad <= 3 && (quad == 1 ==> left < 64) && (quad == 2 ==> left < 16) && (quad == 3 ==> left < 4)
    requires s != "" && SextetOf(s[0]).Some?
    ensures var q := (quad + 1) % 4;
      && (q == 1 ==> rest < 64) && (q == 2 ==> rest < 16) && (q == 3 ==> rest < 4)
      && (Scan(s, quad, left, 0).Some? <==> Scan(s[1..], q, rest, 0).Some?)
  {
    var v := SextetOf(s[0]).value;
    rest := if quad == 0 then v else if quad == 1 then v % 16 else if quad == 2 then v % 4 else 0;
    assert s[0] != '=';
  }

  lemma NextQuad(quad: nat, n: nat)
    requires n > 0
    ensures ((quad + 1) % 4 + (n - 1)) % 4 == (quad + n) % 4
  {
  }

  lemma {:induction false} ScanPadded(t: string, quad: nat, left: nat, n: nat)
    requires quad <= 3 && (quad == 1 ==> left < 64) && (quad == 2 ==> left < 16) && (quad == 3 ==> left < 4)
    requires Symbols(t)
    ensures Scan(t + Pads(n), quad, left, 0).Some? <==>
      var q := (quad + |t|) % 4; q == 0 || (q >= 2 && q + n >= 4)
    decreases |t|
  {
    if t == "" {
      assert t + Pads(n) == Pads(n);
      ScanPads(quad, left, 0, n);
    } else {
      var s := t + Pads(n);
      assert s[0] == t[0] && s[1..] == t[1..] + Pads(n);
      assert SextetOf(t[0]).Some?;
      var rest := ScanFirst(s, quad, left);
      ScanPadded(t[1..], (quad + 1) % 4, rest, n);
      NextQuad(quad, |t|);
    }
  }

  /** Symbols and pads are read just when the last group is whole, or has two symbols at least and enough pads. */
  lemma PadsNeeded(t: string, n: nat)
    requires Symbols(t)
    ensures Decode(t + Pads(n)).Some? <==> |t| % 4 == 0 || (|t| % 4 >= 2 && |t| % 4 + n >= 4)
  {
    ScanPadded(t, 0, 0, n);
    forall i | 0 <= i < |t| ensures t[i] as int < 128 { assert SextetOf(t[i]).Some?; }
  }
}
