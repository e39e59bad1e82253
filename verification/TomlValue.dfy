/**
 Values of the TOML printer: booleans, integers, simple strings and lists of values, as text and read back from
 text.
 */
module TomlValue {
  import opened Basics
  import opened Digits

  datatype Value = Bool(b: bool) | Int(n: int) | Text(s: string) | List(items: Items)

  datatype Items = Empty | Item(head: Value, tail: Items)

  /** Printable ASCII that neither JSON nor TOML escapes. */
  predicate SimpleChar(c: char) { ' ' <= c <= '~' && c != '"' && c != '\\' }

  /** All of printable ASCII but the quote and the backslash. */
  lemma SimpleCharIff(c: char)
    ensures SimpleChar(c) <==> 32 <= c as int <= 126 && c as int != 34 && c as int != 92
  {
  }

  predicate Simple(v: Value) {
    match v
    case Text(s) => forall i :: 0 <= i < |s| ==> SimpleChar(s[i])
    case List(items) => SimpleItems(items)
    case Bool(_) => true
    case Int(_) => true
  }

  /** Only texts are left out, for their characters. */
  lemma SimpleScalars(b: bool, n: int, c: char)
    ensures Simple(Bool(b)) && Simple(Int(n)) && (Simple(Text([c])) <==> SimpleChar(c))
    ensures Simple(List(Item(Bool(b), Item(Int(n), Empty))))
  {
    var s := [c];
    assert s[0] == c;
    assert Simple(Text(s)) <==> forall i :: 0 <= i < 1 ==> SimpleChar(s[i]);
    assert SimpleItems(Item(Int(n), Empty));
  }

  predicate SimpleItems(items: Items) { items.Item? ==> Simple(items.head) && SimpleItems(items.tail) }

  // ----- printing -----

  function ValueText(v: Value): string {
    match v
    case Bool(b) => if b then "true" else "false"
    case Int(n) => Integer(n)
    case Text(s) => "\"" + s + "\""
    case List(items) => "[" + ItemsText(items) + "]"
  }

  function ItemsText(items: Items): string {
    match items
    case Empty => ""
    case Item(head, tail) => if tail.Empty? then ValueText(head) else ValueText(head) + ", " + ItemsText(tail)
  }

  // ----- reading -----

  predicate IsDigit(c: char) { '0' <= c <= '9' }

  function DigitRun(s: string): (n: nat)
    ensures n <= |s|
  {
    if s == "" || !IsDigit(s[0]) then 0 else 1 + DigitRun(s[1..])
  }

  function QuoteAt(s: string): (n: nat)
    ensures n <= |s|
  {
    if s == "" || s[0] == '"' then 0 else 1 + QuoteAt(s[1..])
  }

  function ParseInt(s: string, sign: int): Option<(Value, string)> {
    var n := DigitRun(s);
    if n == 0 then None else Some((Int(sign * ValueOf(s[..n])), s[n..]))
  }

  function Parse(s: string): (r: Option<(Value, string)>)
    ensures r.Some? ==> |r.value.1| < |s|
    decreases |s|, 0
  {
    if s == "" then None
    else if s[0] == '"' then
      var n := QuoteAt(s[1..]);
      if n == |s| - 1 then None else Some((Text(s[1..n + 1]), s[n + 2..]))
    else if s[0] == 't' then if "true" <= s then Some((Bool(true), s[4..])) else None
    else if s[0] == 'f' then if "false" <= s then Some((Bool(false), s[5..])) else None
    else if s[0] == '[' then
      var r := ParseItems(s[1..]);
      if r.None? then None else Some((List(r.value.0), r.value.1))
    else if s[0] == '-' then ParseInt(s[1..], -1)
    else ParseInt(s, 1)
  }

  /** The rest of a list, up to its closing bracket. */
  function ParseItems(s: string): (r: Option<(Items, string)>)
    ensures r.Some? ==> |r.value.1| < |s|
    decreases |s|, 1
  {
    if s != "" && s[0] == ']' then Some((Empty, s[1..]))
    else
      var first := Parse(s);
      if first.None? then None
      else
        var (head, rest) := first.value;
        if "]" <= rest then Some((Item(head, Empty), rest[1..]))
        else if ", " <= rest then
          var more := ParseItems(rest[2..]);
          if more.None? then None else Some((Item(head, more.value.0), more.value.1))
        else None
  }

  function ReadValue(s: string): Option<Value> {
    var r := Parse(s);
    if r.Some? && r.value.1 == "" then Some(r.value.0) else None
  }

  // ----- round trip -----

  /** What may follow a value without becoming part of it. */
  predicate Stops(rest: string) { rest == "" || !IsDigit(rest[0]) }

  lemma {:induction false} DecimalDigits(n: nat)
    ensures forall i :: 0 <= i < |Decimal(n)| ==> IsDigit(Decimal(n)[i])
  {
    if n >= 10 { DecimalDigits(n / 10); }
  }

  lemma {:induction false} RunOfDigits(s: string, rest: string)
    requires (forall i :: 0 <= i < |s| ==> IsDigit(s[i])) && Stops(rest)
    ensures DigitRun(s + rest) == |s|
  {
    if s == "" {
      assert s + rest == rest;
    } else {
      assert (s + rest)[1..] == s[1..] + rest;
      RunOfDigits(s[1..], rest);
    }
  }

  lemma {:induction false} QuoteAfter(s: string, rest: string)
    requires '"' !in s
    ensures QuoteAt(s + "\"" + rest) == |s|
  {
    var t := s + "\"" + rest;
    if s != "" {
      assert s[0] in s;
      assert t[1..] == s[1..] + "\"" + rest;
      QuoteAfter(s[1..], rest);
    }
  }

  lemma IntReadsBack(n: nat, sign: int, rest: string)
    requires Stops(rest)
    ensures ParseInt(Decimal(n) + rest, sign) == Some((Int(sign * n), rest))
  {
    DecimalDigits(n);
    DecimalRoundTrip(n);
    RunOfDigits(Decimal(n), rest);
    var s := Decimal(n) + rest;
    assert s[..|Decimal(n)|] == Decimal(n) && s[|Decimal(n)|..] == rest;
  }

  lemma ParseNumber(s: string)
    requires s != ""
    ensures IsDigit(s[0]) ==> Parse(s) == ParseInt(s, 1)
    ensures s[0] == '-' ==> Parse(s) == ParseInt(s[1..], -1)
  {
  }

  lemma NegativeReadsBack(n: nat, rest: string)
    requires Stops(rest)
    ensures Parse("-" + Decimal(n) + rest) == Some((Int(0 - n), rest))
  {
    var s := "-" + Decimal(n) + rest;
    assert s[0] == '-' && s[1..] == Decimal(n) + rest;
    ParseNumber(s);
    IntReadsBack(n, -1, rest);
  }

  lemma NaturalReadsBack(n: nat, rest: string)
    requires Stops(rest)
    ensures Parse(Decimal(n) + rest) == Some((Int(n), rest))
  {
    var s := Decimal(n) + rest;
    DecimalDigits(n);
    assert s[0] == Decimal(n)[0];
    ParseNumber(s);
    IntReadsBack(n, 1, rest);
  }

  lemma NumberReadsBack(n: int, rest: string)
    requires Stops(rest)
    ensures Parse(Integer(n) + rest) == Some((Int(n), rest))
  {
    if n < 0 { NegativeReadsBack(-n, rest); } else { NaturalReadsBack(n, rest); }
  }

  lemma StringReadsBack(t: string, rest: string)
    requires Simple(Text(t))
    ensures Parse("\"" + t + "\"" + rest) == Some((Text(t), rest))
  {
    var s := "\"" + t + "\"" + rest;
    assert s[1..] == t + "\"" + rest;
    QuoteAfter(t, rest);
    assert s[1..|t| + 1] == t && s[|t| + 2..] == rest;
  }

  /** No value begins like the end of a list. */
  lemma ValueStart(v: Value)
    ensures ValueText(v) != "" && ValueText(v)[0] != ']'
  {
    if v.Int? {
      if v.n >= 0 { DecimalDigits(v.n); }
    }
  }

  /** Reading a printed value gives it back and leaves what follows. */
  lemma {:induction false} ParseUndoesText(v: Value, rest: string)
    requires Simple(v) && Stops(rest)
    ensures Parse(ValueText(v) + rest) == Some((v, rest))
    decreases v
  {
    var s := ValueText(v) + rest;
    match v
    case Bool(b) =>
      if b { assert s[4..] == rest && "true" <= s; } else { assert s[5..] == rest && "false" <= s; }
    case Int(n) => NumberReadsBack(n, rest);
    case Text(t) => StringReadsBack(t, rest);
    case List(items) =>
      assert s[0] == '[' && s[1..] == ItemsText(items) + "]" + rest;
      ParseUndoesItems(items, rest);
  }

  lemma {:induction false} ParseUndoesItems(items: Items, rest: string)
    requires SimpleItems(items)
    ensures ParseItems(ItemsText(items) + "]" + rest) == Some((items, rest))
    decreases items
  {
    var s := ItemsText(items) + "]" + rest;
    match items
    case Empty =>
      assert s[0] == ']' && s[1..] == rest;
    case Item(head, tail) =>
      ValueStart(head);
      var after := if tail.Empty? then "]" + rest else ", " + (ItemsText(tail) + "]" + rest);
      assert s == ValueText(head) + after;
      assert s[0] == ValueText(head)[0];
      ParseUndoesText(head, after);
      if tail.Empty? {
        assert after[1..] == rest && "]" <= after;
      } else {
        assert after[2..] == ItemsText(tail) + "]" + rest && ", " <= after && !("]" <= after);
        ParseUndoesItems(tail, rest);
      }
  }

  lemma ValueReadsBack(v: Value)
    requires Simple(v)
    ensures ReadValue(ValueText(v)) == Some(v)
  {
    ParseUndoesText(v, "");
    assert ValueText(v) + "" == ValueText(v);
  }
}
