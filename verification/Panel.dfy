/**
 Freezing a balanced evaluation panel: for each label the rows with the lowest selection hashes that are not
 excluded.
 */
module Panel {
  import opened Basics
  import opened Lex

  const LABELS: nat := 77

  const PREFIX: string := "banking77/heldout/"

  datatype Row = Row(id: string, intent: string, seed: int)

  /**
   `hash` is the selection hash of a label and a task id for the panel seed; the digests are those of the published
   JSON.
   */
  datatype Digests = Digests(hash: (string, string) -> string, ofRows: seq<Row> -> string, ofIds: seq<string> -> string)

  function Hash(d: Digests, r: Row): string { d.hash(r.intent, r.id) }

  predicate Heldout(id: string) { PREFIX <= id }

  lemma HeldoutIff(id: string)
    ensures Heldout(id) <==> exists rest :: id == "banking77/heldout/" + rest
  {
    if Heldout(id) { assert id == PREFIX + id[|PREFIX|..]; }
  }

  // ----- sorting -----

  /** Stable insertion by hash. */
  function InsertRow(d: Digests, s: seq<Row>, r: Row): seq<Row> {
    if s == [] || !Less(Hash(d, r), Hash(d, s[|s| - 1])) then s + [r]
    else InsertRow(d, s[..|s| - 1], r) + [s[|s| - 1]]
  }

  function Ranked(d: Digests, s: seq<Row>): seq<Row> {
    if s == [] then [] else InsertRow(d, Ranked(d, s[..|s| - 1]), s[|s| - 1])
  }

  ghost predicate ByHash(d: Digests, s: seq<Row>) {
    forall i, j :: 0 <= i < j < |s| ==> !Less(Hash(d, s[j]), Hash(d, s[i]))
  }

  lemma {:induction false} InsertRowKeeps(d: Digests, s: seq<Row>, r: Row)
    ensures multiset(InsertRow(d, s, r)) == multiset(s) + multiset{r}
  {
    if s != [] && Less(Hash(d, r), Hash(d, s[|s| - 1])) {
      InsertRowKeeps(d, s[..|s| - 1], r);
      assert s == s[..|s| - 1] + [s[|s| - 1]];
    }
  }

  lemma NotLessTransitive(a: string, b: string, c: string)
    requires !Less(b, a) && !Less(c, b)
    ensures !Less(c, a)
  {
    Total(a, b);
    Total(b, c);
    if Less(c, a) {
      if Less(a, b) { Transitive(c, a, b); }
    }
  }

  lemma {:induction false} InsertRowOrdered(d: Digests, s: seq<Row>, r: Row)
    requires ByHash(d, s)
    ensures ByHash(d, InsertRow(d, s, r))
  {
    if s != [] {
      var last := s[|s| - 1];
      if Less(Hash(d, r), Hash(d, last)) {
        InsertRowOrdered(d, s[..|s| - 1], r);
        var t := InsertRow(d, s[..|s| - 1], r);
        Asymmetric(Hash(d, r), Hash(d, last));
        forall i | 0 <= i < |t| ensures !Less(Hash(d, last), Hash(d, t[i])) {
          InsertRowKeeps(d, s[..|s| - 1], r);
          assert t[i] in multiset(t);
          assert t[i] == r || t[i] in s[..|s| - 1];
        }
      } else {
        forall i | 0 <= i < |s| ensures !Less(Hash(d, r), Hash(d, s[i])) {
          if i < |s| - 1 { NotLessTransitive(Hash(d, s[i]), Hash(d, last), Hash(d, r)); }
        }
      }
    }
  }

  lemma {:induction false} RankedKeeps(d: Digests, s: seq<Row>)
    ensures multiset(Ranked(d, s)) == multiset(s) && ByHash(d, Ranked(d, s))
  {
    if s != [] {
      var last := |s| - 1;
      RankedKeeps(d, s[..last]);
      InsertRowKeeps(d, Ranked(d, s[..last]), s[last]);
      InsertRowOrdered(d, Ranked(d, s[..last]), s[last]);
      LastRow(s);
    }
  }

  lemma LastRow(s: seq<Row>)
    requires s != []
    ensures multiset(s) == multiset(s[..|s| - 1]) + multiset{s[|s| - 1]}
  {
    assert s == s[..|s| - 1] + [s[|s| - 1]];
  }

  /** A text inserted into an ascending list, unless it is there. */
  function InsertText(s: seq<string>, x: string): seq<string> {
    if s == [] || Less(s[|s| - 1], x) then s + [x]
    else if s[|s| - 1] == x then s
    else InsertText(s[..|s| - 1], x) + [s[|s| - 1]]
  }

  lemma {:induction false} InsertTextKeeps(s: seq<string>, x: string)
    requires Ascending(s)
    ensures Ascending(InsertText(s, x)) && forall y :: y in InsertText(s, x) <==> y in s || y == x
  {
    if s != [] {
      var last := s[|s| - 1];
      assert s == s[..|s| - 1] + [last];
      if Less(last, x) {
        forall i | 0 <= i < |s| - 1 ensures Less(s[i], x) { Transitive(s[i], last, x); }
      } else if last != x {
        Total(last, x);
        InsertTextKeeps(s[..|s| - 1], x);
        var t := InsertText(s[..|s| - 1], x);
        forall i | 0 <= i < |t| ensures Less(t[i], last) {
          assert t[i] in t;
        }
      }
    }
  }

  /** The distinct texts of a list, in order. */
  function SortedTexts(s: seq<string>): seq<string> {
    if s == [] then [] else InsertText(SortedTexts(s[..|s| - 1]), s[|s| - 1])
  }

  lemma {:induction false} SortedTextsKeeps(s: seq<string>)
    ensures Ascending(SortedTexts(s)) && forall y :: y in SortedTexts(s) <==> y in s
  {
    if s != [] {
      SortedTextsKeeps(s[..|s| - 1]);
      InsertTextKeeps(SortedTexts(s[..|s| - 1]), s[|s| - 1]);
      assert s == s[..|s| - 1] + [s[|s| - 1]];
    }
  }

  /** Ascending lists are told apart by their elements alone. */
  lemma {:induction false} AscendingIsUnique(s: seq<string>, t: seq<string>)
    requires Ascending(s) && Ascending(t) && forall y :: y in s <==> y in t
    ensures s == t
  {
    if s == [] {
      assert forall i :: 0 <= i < |t| ==> t[i] in s;
    } else {
      assert s[0] in s;
      assert t != [];
      var a, b := |s| - 1, |t| - 1;
      SameLast(s, t);
      forall y ensures y in s[..a] <==> y in t[..b] {
        if y in s[..a] {
          var i :| 0 <= i < a && s[i] == y;
          Asymmetric(s[i], s[a]);
          assert y in t && y != t[b];
        }
        if y in t[..b] {
          var i :| 0 <= i < b && t[i] == y;
          Asymmetric(t[i], t[b]);
          assert y in s && y != s[a];
        }
      }
      AscendingIsUnique(s[..a], t[..b]);
      assert s == s[..a] + [s[a]] && t == t[..b] + [t[b]];
    }
  }

  lemma SameLast(s: seq<string>, t: seq<string>)
    requires Ascending(s) && Ascending(t) && s != [] && t != [] && forall y :: y in s <==> y in t
    ensures s[|s| - 1] == t[|t| - 1]
  {
    var x, z := s[|s| - 1], t[|t| - 1];
    assert x in s && z in t;
    assert x in t && z in s;
    var i :| 0 <= i < |t| && t[i] == x;
    var j :| 0 <= j < |s| && s[j] == z;
    if x != z {
      assert Less(x, z) && Less(z, x);
      Asymmetric(x, z);
    }
  }

  // ----- the panel -----

  function Candidates(rows: seq<Row>, excluded: set<string>, intent: string): seq<Row> {
    if rows == [] then []
    else
      var r := rows[|rows| - 1];
      Candidates(rows[..|rows| - 1], excluded, intent) + if r.intent == intent && r.id !in excluded then [r] else []
  }

  function Intents(rows: seq<Row>): seq<string> { seq(|rows|, i requires 0 <= i < |rows| => rows[i].intent) }

  /** The rows chosen for one label. */
  function Chosen(d: Digests, rows: seq<Row>, excluded: set<string>, n: nat, intent: string): seq<Row> {
    var ranked := Ranked(d, Candidates(rows, excluded, intent));
    ranked[..Min(n, |ranked|)]
  }

  function Selection(d: Digests, rows: seq<Row>, excluded: set<string>, n: nat, intents: seq<string>): seq<Row> {
    if intents == [] then []
    else
      var last := |intents| - 1;
      Selection(d, rows, excluded, n, intents[..last]) + Chosen(d, rows, excluded, n, intents[last])
  }

  ghost predicate DistinctIds(rows: seq<Row>) {
    forall i, j :: 0 <= i < j < |rows| ==> rows[i].id != rows[j].id
  }

  /** What a source must be for a panel to exist; nothing here depends on the order of its rows. */
  ghost predicate Suitable(rows: seq<Row>, excluded: set<string>, n: int) {
    && n >= 1
    && DistinctIds(rows) && (forall i :: 0 <= i < |rows| ==> Heldout(rows[i].id))
    && |SortedTexts(Intents(rows))| == 77
    && (forall l :: l in Intents(rows) ==> |Candidates(rows, excluded, l)| >= n)
  }

  function OfIntent(s: seq<Row>, intent: string): seq<Row> {
    if s == [] then [] else OfIntent(s[..|s| - 1], intent) + if s[|s| - 1].intent == intent then [s[|s| - 1]] else []
  }

  /** By label, and within a label by hash. */
  ghost predicate InPanelOrder(d: Digests, s: seq<Row>) {
    forall i, j :: 0 <= i < j < |s| ==>
      Less(s[i].intent, s[j].intent) || (s[i].intent == s[j].intent && !Less(Hash(d, s[j]), Hash(d, s[i])))
  }

  /**
   A panel of a source, said without sorting or order of rows: unexcluded rows of the source, each at most once,
   exactly `n` for each label, none of them with a higher hash than an unexcluded row of its label that was left
   out, listed by label and hash.
   */
  ghost predicate IsPanel(d: Digests, rows: seq<Row>, excluded: set<string>, n: nat, panel: seq<Row>) {
    && (forall r :: multiset(panel)[r] <= multiset(rows)[r])
    && (forall r :: r in panel ==> r.id !in excluded)
    && (forall l :: l in Intents(rows) ==> |OfIntent(panel, l)| == n)
    && (forall r, q :: r in panel && q in rows && q !in panel && q.id !in excluded && q.intent == r.intent ==>
          !Less(Hash(d, q), Hash(d, r)))
    && InPanelOrder(d, panel)
  }

  lemma {:induction false} CandidateCounts(rows: seq<Row>, excluded: set<string>, intent: string, r: Row)
    ensures multiset(Candidates(rows, excluded, intent))[r]
      == if r.intent == intent && r.id !in excluded then multiset(rows)[r] else 0
  {
    if rows != [] {
      var before, q := rows[..|rows| - 1], rows[|rows| - 1];
      CandidateCounts(before, excluded, intent, r);
      assert rows == before + [q];
    }
  }

  lemma ChosenCounts(d: Digests, rows: seq<Row>, excluded: set<string>, n: nat, intent: string, r: Row)
    ensures multiset(Chosen(d, rows, excluded, n, intent))[r]
      <= if r.intent == intent && r.id !in excluded then multiset(rows)[r] else 0
  {
    var ranked := Ranked(d, Candidates(rows, excluded, intent));
    RankedKeeps(d, Candidates(rows, excluded, intent));
    CandidateCounts(rows, excluded, intent, r);
    PrefixCounts(ranked, Min(n, |ranked|), r);
  }

  lemma PrefixCounts(s: seq<Row>, k: nat, r: Row)
    requires k <= |s|
    ensures multiset(s[..k])[r] <= multiset(s)[r]
  {
    assert s == s[..k] + s[k..];
  }

  lemma ChosenMembers(d: Digests, rows: seq<Row>, excluded: set<string>, n: nat, intent: string, i: nat)
    requires i < |Chosen(d, rows, excluded, n, intent)|
    ensures var r := Chosen(d, rows, excluded, n, intent)[i]; r.intent == intent && r.id !in excluded && r in rows
  {
    var s := Chosen(d, rows, excluded, n, intent);
    assert multiset(s)[s[i]] >= 1 by { assert s[i] in multiset(s); }
    ChosenCounts(d, rows, excluded, n, intent, s[i]);
    assert s[i] in multiset(rows);
  }

  lemma {:induction false} SelectionCounts(d: Digests, rows: seq<Row>, excluded: set<string>, n: nat,
      intents: seq<string>, r: Row)
    requires Distinct(intents)
    ensures multiset(Selection(d, rows, excluded, n, intents))[r]
      <= if r.intent in intents && r.id !in excluded then multiset(rows)[r] else 0
  {
    if intents != [] {
      var last := |intents| - 1;
      SelectionCounts(d, rows, excluded, n, intents[..last], r);
      ChosenCounts(d, rows, excluded, n, intents[last], r);
      assert intents[last] !in intents[..last];
    }
  }

  lemma RowsAssociative(x: seq<Row>, y: seq<Row>, z: seq<Row>)
    ensures x + y + z == x + (y + z)
  {
  }

  lemma {:induction false} OfIntentConcat(s: seq<Row>, t: seq<Row>, intent: string)
    ensures OfIntent(s + t, intent) == OfIntent(s, intent) + OfIntent(t, intent)
  {
    if t == [] {
      assert s + t == s;
    } else {
      var front := t[..|t| - 1];
      OfIntentConcat(s, front, intent);
      assert (s + t)[..|s + t| - 1] == s + front;
      RowsAssociative(OfIntent(s, intent), OfIntent(front, intent),
        if t[|t| - 1].intent == intent then [t[|t| - 1]] else []);
    }
  }

  lemma {:induction false} OfIntentAll(s: seq<Row>, intent: string)
    requires forall i :: 0 <= i < |s| ==> s[i].intent == intent
    ensures OfIntent(s, intent) == s
  {
    if s != [] {
      OfIntentAll(s[..|s| - 1], intent);
      assert s == s[..|s| - 1] + [s[|s| - 1]];
    }
  }

  lemma {:induction false} OfIntentNone(s: seq<Row>, intent: string)
    requires forall i :: 0 <= i < |s| ==> s[i].intent != intent
    ensures OfIntent(s, intent) == []
  {
    if s != [] { OfIntentNone(s[..|s| - 1], intent); }
  }

  lemma ChosenOfIntent(d: Digests, rows: seq<Row>, excluded: set<string>, n: nat, intent: string, other: string)
    ensures var s := Chosen(d, rows, excluded, n, intent); OfIntent(s, other) == if other == intent then s else []
  {
    var s := Chosen(d, rows, excluded, n, intent);
    forall i | 0 <= i < |s| ensures s[i].intent == intent {
      ChosenMembers(d, rows, excluded, n, intent, i);
    }
    if other == intent { OfIntentAll(s, intent); } else { OfIntentNone(s, other); }
  }

  lemma {:induction false} SelectionOfIntent(d: Digests, rows: seq<Row>, excluded: set<string>, n: nat,
      intents: seq<string>, intent: string)
    requires Distinct(intents)
    ensures OfIntent(Selection(d, rows, excluded, n, intents), intent)
      == if intent in intents then Chosen(d, rows, excluded, n, intent) else []
  {
    if intents != [] {
      var last := |intents| - 1;
      SelectionOfIntent(d, rows, excluded, n, intents[..last], intent);
      ChosenOfIntent(d, rows, excluded, n, intents[last], intent);
      OfIntentConcat(Selection(d, rows, excluded, n, intents[..last]), Chosen(d, rows, excluded, n, intents[last]),
        intent);
      LastApart(intents, intent);
    }
  }

  lemma LastApart(intents: seq<string>, intent: string)
    requires intents != [] && Distinct(intents)
    ensures var last := |intents| - 1;
      && intents[last] !in intents[..last]
      && (intent in intents <==> intent in intents[..last] || intent == intents[last])
  {
  }

  lemma {:induction false} OfIntentMembers(s: seq<Row>, r: Row)
    ensures r in OfIntent(s, r.intent) <==> r in s
  {
    if s != [] {
      OfIntentMembers(s[..|s| - 1], r);
      assert s == s[..|s| - 1] + [s[|s| - 1]];
    }
  }

  lemma ChosenOrdered(d: Digests, rows: seq<Row>, excluded: set<string>, n: nat, intent: string)
    ensures
      var s := Chosen(d, rows, excluded, n, intent);
      ByHash(d, s) && forall i :: 0 <= i < |s| ==> s[i].intent == intent
  {
    var s := Chosen(d, rows, excluded, n, intent);
    RankedKeeps(d, Candidates(rows, excluded, intent));
    forall i | 0 <= i < |s| ensures s[i].intent == intent {
      ChosenMembers(d, rows, excluded, n, intent, i);
    }
  }

  lemma OrderedConcat(d: Digests, before: seq<Row>, s: seq<Row>, intent: string)
    requires InPanelOrder(d, before) && ByHash(d, s) && (forall i :: 0 <= i < |s| ==> s[i].intent == intent)
    requires forall i :: 0 <= i < |before| ==> Less(before[i].intent, intent)
    ensures InPanelOrder(d, before + s)
  {
  }

  lemma {:induction false} SelectionOrdered(d: Digests, rows: seq<Row>, excluded: set<string>, n: nat,
      intents: seq<string>)
    requires Ascending(intents)
    ensures InPanelOrder(d, Selection(d, rows, excluded, n, intents))
    ensures forall i :: 0 <= i < |Selection(d, rows, excluded, n, intents)| ==>
      Selection(d, rows, excluded, n, intents)[i].intent in intents
  {
    if intents != [] {
      var last := |intents| - 1;
      SelectionOrdered(d, rows, excluded, n, intents[..last]);
      var before, s := Selection(d, rows, excluded, n, intents[..last]), Chosen(d, rows, excluded, n, intents[last]);
      ChosenOrdered(d, rows, excluded, n, intents[last]);
      forall i | 0 <= i < |before| ensures Less(before[i].intent, intents[last]) && before[i].intent in intents {
        assert before[i].intent in intents[..last];
      }
      OrderedConcat(d, before, s, intents[last]);
    }
  }

  lemma AscendingDistinct(s: seq<string>)
    requires Ascending(s)
    ensures Distinct(s)
  {
    forall i, j | 0 <= i < j < |s| ensures s[i] != s[j] {
      Asymmetric(s[i], s[j]);
    }
  }

  lemma CandidateMember(rows: seq<Row>, excluded: set<string>, q: Row)
    requires q in rows && q.id !in excluded
    ensures q in multiset(Candidates(rows, excluded, q.intent))
  {
    CandidateCounts(rows, excluded, q.intent, q);
    assert q in multiset(rows);
  }

  /** In a ranking, what lies outside a prefix comes after it. */
  lemma OutsidePrefix(d: Digests, ranked: seq<Row>, k: nat, r: Row, q: Row)
    requires ByHash(d, ranked) && k <= |ranked| && r in ranked[..k] && q in ranked && q !in ranked[..k]
    ensures !Less(Hash(d, q), Hash(d, r))
  {
    forall m | 0 <= m < k ensures ranked[m] in ranked[..k] {
      assert ranked[..k][m] == ranked[m];
    }
    var i :| 0 <= i < k && ranked[..k][i] == r;
    var j :| 0 <= j < |ranked| && ranked[j] == q;
  }

  /** An unexcluded row of a label that was not chosen comes after the chosen ones. */
  lemma ChosenAreLowest(d: Digests, rows: seq<Row>, excluded: set<string>, n: nat, r: Row, q: Row)
    requires q.intent == r.intent && r in Chosen(d, rows, excluded, n, r.intent)
    requires q !in Chosen(d, rows, excluded, n, r.intent)
    requires q in rows && q.id !in excluded
    ensures !Less(Hash(d, q), Hash(d, r))
  {
    var ranked := Ranked(d, Candidates(rows, excluded, r.intent));
    RankedKeeps(d, Candidates(rows, excluded, r.intent));
    CandidateMember(rows, excluded, q);
    assert q in multiset(ranked);
    OutsidePrefix(d, ranked, Min(n, |ranked|), r, q);
  }

  /** Sorting, grouping and cutting gives a panel, for every suitable source. */
  lemma SelectionIsPanel(d: Digests, rows: seq<Row>, excluded: set<string>, n: int)
    requires Suitable(rows, excluded, n)
    ensures IsPanel(d, rows, excluded, n, Selection(d, rows, excluded, n, SortedTexts(Intents(rows))))
  {
    var intents := SortedTexts(Intents(rows));
    var panel := Selection(d, rows, excluded, n, intents);
    SortedTextsKeeps(Intents(rows));
    AscendingDistinct(intents);
    SelectionOrdered(d, rows, excluded, n, intents);
    SelectionTakesRows(d, rows, excluded, n, intents);
    forall l | l in Intents(rows) ensures |OfIntent(panel, l)| == n {
      SelectionOfIntent(d, rows, excluded, n, intents, l);
      RankedKeeps(d, Candidates(rows, excluded, l));
      RankedLength(d, Candidates(rows, excluded, l));
    }
    forall r, q | r in panel && q in rows && q !in panel && q.id !in excluded && q.intent == r.intent
      ensures !Less(Hash(d, q), Hash(d, r))
    {
      SelectionLowest(d, rows, excluded, n, intents, r, q);
    }
  }

  lemma SelectionTakesRows(d: Digests, rows: seq<Row>, excluded: set<string>, n: nat, intents: seq<string>)
    requires Distinct(intents)
    ensures var panel := Selection(d, rows, excluded, n, intents);
      && (forall r :: multiset(panel)[r] <= multiset(rows)[r])
      && (forall r :: r in panel ==> r.id !in excluded)
  {
    var panel := Selection(d, rows, excluded, n, intents);
    forall r ensures multiset(panel)[r] <= multiset(rows)[r] && (r in panel ==> r.id !in excluded) {
      SelectionCounts(d, rows, excluded, n, intents, r);
      if r in panel { assert r in multiset(panel); }
    }
  }

  lemma SelectionLowest(d: Digests, rows: seq<Row>, excluded: set<string>, n: nat, intents: seq<string>, r: Row, q: Row)
    requires Distinct(intents) && q.intent == r.intent && q in rows && q.id !in excluded
    requires var panel := Selection(d, rows, excluded, n, intents); r in panel && q !in panel
    ensures !Less(Hash(d, q), Hash(d, r))
  {
    var panel := Selection(d, rows, excluded, n, intents);
    SelectionOfIntent(d, rows, excluded, n, intents, r.intent);
    OfIntentMembers(panel, r);
    OfIntentMembers(panel, q);
    ChosenAreLowest(d, rows, excluded, n, r, q);
  }

  lemma RankedLength(d: Digests, s: seq<Row>)
    ensures |Ranked(d, s)| == |s|
  {
    RankedKeeps(d, s);
    assert |Ranked(d, s)| == |multiset(Ranked(d, s))| == |multiset(s)| == |s|;
  }

  // ----- the panel does not depend on the order of the source -----

  /** No unexcluded row shares its label and its selection hash with another row that is on the panel. */
  ghost predicate ClearCut(d: Digests, rows: seq<Row>, excluded: set<string>, panel: seq<Row>) {
    forall r, q :: r in panel && q in rows && q.id !in excluded && Twins(d, r, q) ==> r == q
  }

  predicate Twins(d: Digests, r: Row, q: Row) { r.intent == q.intent && Hash(d, r) == Hash(d, q) }

  ghost predicate SameRows(a: seq<Row>, b: seq<Row>) { multiset(a) == multiset(b) }

  lemma PanelMembers(d: Digests, rows: seq<Row>, excluded: set<string>, n: nat, panel: seq<Row>, r: Row)
    requires IsPanel(d, rows, excluded, n, panel) && r in panel
    ensures r in rows && r.id !in excluded
  {
    assert r in multiset(panel);
    assert r in multiset(rows);
  }

  /** Equal sizes and no repetition: a row in one list and not the other is answered by one the other way round. */
  lemma {:induction false} Exchange(a: seq<Row>, b: seq<Row>, r: Row) returns (q: Row)
    requires |a| == |b| && Distinct(a) && Distinct(b) && r in a && r !in b
    ensures q in b && q !in a
  {
    Elements(a);
    Elements(b);
    var p, s := (set x | x in a), (set x | x in b);
    assert |p - {r}| == |p| - 1;
    if s <= p - {r} {
      Subset(s, p - {r});
      assert false;
    }
    q :| q in s && q !in p - {r};
  }

  lemma {:induction false} Elements(a: seq<Row>)
    requires Distinct(a)
    ensures |set x | x in a| == |a|
  {
    if a != [] {
      var last := |a| - 1;
      Elements(a[..last]);
      assert (set x | x in a) == (set x | x in a[..last]) + {a[last]};
    }
  }

  lemma {:induction false} Subset(a: set<Row>, b: set<Row>)
    requires a <= b
    ensures |a| <= |b|
  {
    if a != {} {
      var x :| x in a;
      Subset(a - {x}, b - {x});
    }
  }

  lemma {:induction false} OfIntentDistinct(s: seq<Row>, intent: string)
    requires Distinct(s)
    ensures Distinct(OfIntent(s, intent)) && forall r :: r in OfIntent(s, intent) ==> r in s && r.intent == intent
  {
    if s != [] { OfIntentDistinct(s[..|s| - 1], intent); }
  }

  lemma PanelDistinct(d: Digests, rows: seq<Row>, excluded: set<string>, n: nat, panel: seq<Row>)
    requires DistinctIds(rows) && IsPanel(d, rows, excluded, n, panel)
    ensures DistinctIds(panel) && Distinct(panel)
  {
    RowsOnce(rows);
    forall i, j | 0 <= i < j < |panel| ensures panel[i].id != panel[j].id {
      PanelMembers(d, rows, excluded, n, panel, panel[i]);
      PanelMembers(d, rows, excluded, n, panel, panel[j]);
      if panel[i].id == panel[j].id {
        SameIdSameRow(rows, panel[i], panel[j]);
        Twice(panel, i, j);
      }
    }
  }

  lemma SameIdSameRow(rows: seq<Row>, r: Row, q: Row)
    requires DistinctIds(rows) && r in rows && q in rows && r.id == q.id
    ensures r == q
  {
    var i :| 0 <= i < |rows| && rows[i] == r;
    var j :| 0 <= j < |rows| && rows[j] == q;
    assert i == j;
  }

  lemma {:induction false} RowsOnce(rows: seq<Row>)
    requires DistinctIds(rows)
    ensures forall r :: multiset(rows)[r] <= 1
  {
    if rows != [] {
      var last := |rows| - 1;
      RowsOnce(rows[..last]);
      assert rows == rows[..last] + [rows[last]];
      assert rows[last] !in rows[..last];
    }
  }

  lemma Twice(s: seq<Row>, i: nat, j: nat)
    requires i < j < |s| && s[i] == s[j]
    ensures multiset(s)[s[i]] >= 2
  {
    assert s == s[..j] + [s[j]] + s[j + 1..];
    assert s[..j][i] == s[i];
    assert s[i] in multiset(s[..j]);
  }

  lemma PanelKeepsRow(d: Digests, rows: seq<Row>, excluded: set<string>, n: nat, p: seq<Row>, q: seq<Row>, r: Row)
    requires DistinctIds(rows) && (ClearCut(d, rows, excluded, p) || ClearCut(d, rows, excluded, q))
    requires IsPanel(d, rows, excluded, n, p) && IsPanel(d, rows, excluded, n, q) && r in p
    ensures r in q
  {
    PanelDistinct(d, rows, excluded, n, p);
    PanelDistinct(d, rows, excluded, n, q);
    var a, b := OfIntent(p, r.intent), OfIntent(q, r.intent);
    PanelMembers(d, rows, excluded, n, p, r);
    IntentKnown(rows, r);
    if r !in q {
      OfIntentMembers(p, r);
      OfIntentMembers(q, r);
      OfIntentDistinct(p, r.intent);
      OfIntentDistinct(q, r.intent);
      var x := Exchange(a, b, r);
      OfIntentMembers(p, x);
      PanelMembers(d, rows, excluded, n, q, x);
      Total(Hash(d, r), Hash(d, x));
      assert Twins(d, r, x) && Twins(d, x, r);
      assert false;
    }
  }

  lemma IntentKnown(rows: seq<Row>, r: Row)
    requires r in rows
    ensures r.intent in Intents(rows)
  {
    var i :| 0 <= i < |rows| && rows[i] == r;
    assert Intents(rows)[i] == r.intent;
  }

  predicate Before(d: Digests, a: Row, b: Row) {
    Less(a.intent, b.intent) || (a.intent == b.intent && Less(Hash(d, a), Hash(d, b)))
  }

  ghost predicate Strict(d: Digests, s: seq<Row>) { forall i, j :: 0 <= i < j < |s| ==> Before(d, s[i], s[j]) }

  lemma BeforeAsymmetric(d: Digests, a: Row, b: Row)
    requires Before(d, a, b)
    ensures !Before(d, b, a) && a != b
  {
    if Less(a.intent, b.intent) { Asymmetric(a.intent, b.intent); } else { Asymmetric(Hash(d, a), Hash(d, b)); }
    Irreflexive(a.intent);
  }

  lemma PanelStrict(d: Digests, rows: seq<Row>, excluded: set<string>, n: nat, p: seq<Row>)
    requires DistinctIds(rows) && ClearCut(d, rows, excluded, p) && IsPanel(d, rows, excluded, n, p)
    ensures Strict(d, p)
  {
    PanelDistinct(d, rows, excluded, n, p);
    forall i, j | 0 <= i < j < |p| ensures Before(d, p[i], p[j]) {
      PanelMembers(d, rows, excluded, n, p, p[i]);
      PanelMembers(d, rows, excluded, n, p, p[j]);
      Total(Hash(d, p[i]), Hash(d, p[j]));
      assert !Twins(d, p[i], p[j]);
    }
  }

  lemma SameLastRow(d: Digests, s: seq<Row>, t: seq<Row>)
    requires Strict(d, s) && Strict(d, t) && s != [] && t != [] && forall y :: y in s <==> y in t
    ensures s[|s| - 1] == t[|t| - 1]
  {
    var x, z := s[|s| - 1], t[|t| - 1];
    assert x in s && z in t;
    assert x in t && z in s;
    var i :| 0 <= i < |t| && t[i] == x;
    var j :| 0 <= j < |s| && s[j] == z;
    if x != z {
      assert Before(d, x, z) && Before(d, z, x);
      BeforeAsymmetric(d, x, z);
    }
  }

  lemma {:induction false} StrictIsUnique(d: Digests, s: seq<Row>, t: seq<Row>)
    requires Strict(d, s) && Strict(d, t) && forall y :: y in s <==> y in t
    ensures s == t
  {
    if s == [] {
      assert forall i :: 0 <= i < |t| ==> t[i] in s;
    } else {
      assert s[0] in s;
      assert t != [];
      var a, b := |s| - 1, |t| - 1;
      SameLastRow(d, s, t);
      forall y ensures y in s[..a] <==> y in t[..b] {
        if y in s[..a] {
          var i :| 0 <= i < a && s[i] == y;
          BeforeAsymmetric(d, s[i], s[a]);
          assert y in t && y != t[b];
        }
        if y in t[..b] {
          var i :| 0 <= i < b && t[i] == y;
          BeforeAsymmetric(d, t[i], t[b]);
          assert y in s && y != s[a];
        }
      }
      StrictIsUnique(d, s[..a], t[..b]);
      assert s == s[..a] + [s[a]] && t == t[..b] + [t[b]];
    }
  }

  /** A panel without a twin left out or on it is the only one of its source. */
  lemma PanelIsUnique(d: Digests, rows: seq<Row>, excluded: set<string>, n: nat, p: seq<Row>, q: seq<Row>)
    requires DistinctIds(rows) && ClearCut(d, rows, excluded, p)
    requires IsPanel(d, rows, excluded, n, p) && IsPanel(d, rows, excluded, n, q)
    ensures p == q
  {
    forall r ensures r in p <==> r in q {
      if r in p { PanelKeepsRow(d, rows, excluded, n, p, q, r); }
      if r in q { PanelKeepsRow(d, rows, excluded, n, q, p, r); }
    }
    PanelStrict(d, rows, excluded, n, p);
    PanelStrict(d, rows, excluded, n, q);
    StrictIsUnique(d, p, q);
  }

  lemma SameRowsMembers(a: seq<Row>, b: seq<Row>)
    requires SameRows(a, b)
    ensures (forall r :: r in a <==> r in b) && forall l :: l in Intents(a) <==> l in Intents(b)
  {
    forall r ensures r in a <==> r in b {
      assert r in multiset(a) <==> r in multiset(b);
    }
    forall l ensures l in Intents(a) <==> l in Intents(b) {
      if l in Intents(a) { var i :| 0 <= i < |a| && Intents(a)[i] == l; assert a[i] in b; IntentKnown(b, a[i]); }
      if l in Intents(b) { var i :| 0 <= i < |b| && Intents(b)[i] == l; assert b[i] in a; IntentKnown(a, b[i]); }
    }
  }

  lemma PermutedPanel(d: Digests, a: seq<Row>, b: seq<Row>, excluded: set<string>, n: nat, p: seq<Row>)
    requires SameRows(a, b) && IsPanel(d, a, excluded, n, p)
    ensures IsPanel(d, b, excluded, n, p)
  {
    SameRowsMembers(a, b);
  }

  lemma PermutedSuitable(a: seq<Row>, b: seq<Row>, excluded: set<string>, n: int)
    requires SameRows(a, b) && Suitable(a, excluded, n)
    ensures Suitable(b, excluded, n)
  {
    SameRowsMembers(a, b);
    PermutedIds(a, b);
    SortedTextsKeeps(Intents(a));
    SortedTextsKeeps(Intents(b));
    AscendingIsUnique(SortedTexts(Intents(a)), SortedTexts(Intents(b)));
    forall i | 0 <= i < |b| ensures Heldout(b[i].id) {
      assert b[i] in a;
    }
    forall l | l in Intents(b) ensures |Candidates(b, excluded, l)| >= n {
      SameCandidates(a, b, excluded, l);
    }
  }

  lemma PermutedIds(a: seq<Row>, b: seq<Row>)
    requires SameRows(a, b) && DistinctIds(a)
    ensures DistinctIds(b)
  {
    SameRowsMembers(a, b);
    RowsOnce(a);
    forall i, j | 0 <= i < j < |b| ensures b[i].id != b[j].id {
      if b[i].id == b[j].id {
        SameIdSameRow(a, b[i], b[j]);
        Twice(b, i, j);
      }
    }
  }

  lemma SameCandidates(a: seq<Row>, b: seq<Row>, excluded: set<string>, intent: string)
    requires SameRows(a, b)
    ensures |Candidates(a, excluded, intent)| == |Candidates(b, excluded, intent)|
  {
    var x, y := Candidates(a, excluded, intent), Candidates(b, excluded, intent);
    forall r ensures multiset(x)[r] == multiset(y)[r] {
      CandidateCounts(a, excluded, intent, r);
      CandidateCounts(b, excluded, intent, r);
    }
    assert multiset(x) == multiset(y);
    assert |x| == |multiset(x)| && |y| == |multiset(y)|;
  }

  // ----- freezing -----

  datatype Frozen = Frozen(rows: seq<Row>, perIntent: int, excluded: seq<string>, exclusionDigest: string,
    panelDigest: string)

  datatype Fault = BadCount | NotHeldout | Duplicate | WrongLabels | TooFew | Broken

  function IdsOf(rows: seq<Row>): set<string> { set i | 0 <= i < |rows| :: rows[i].id }

  function TextsOf(s: seq<string>): set<string> { set i | 0 <= i < |s| :: s[i] }

  lemma {:induction false} IdsCounted(rows: seq<Row>)
    ensures |IdsOf(rows)| <= |rows| && (DistinctIds(rows) ==> |IdsOf(rows)| == |rows|)
  {
    if rows != [] {
      var last := |rows| - 1;
      IdsCounted(rows[..last]);
      assert IdsOf(rows) == IdsOf(rows[..last]) + {rows[last].id};
      if DistinctIds(rows) {
        assert rows[last].id !in IdsOf(rows[..last]);
      }
    }
  }

  lemma OneMoreTimes(k: nat, n: nat)
    ensures (k + 1) * n == k * n + n
  {
  }

  lemma {:induction false} SelectionLength(d: Digests, rows: seq<Row>, excluded: set<string>, n: nat,
      intents: seq<string>)
    requires forall l :: l in intents ==> |Candidates(rows, excluded, l)| >= n
    ensures |Selection(d, rows, excluded, n, intents)| == |intents| * n
  {
    if intents != [] {
      var last := |intents| - 1;
      SelectionLength(d, rows, excluded, n, intents[..last]);
      RankedLength(d, Candidates(rows, excluded, intents[last]));
      assert |Chosen(d, rows, excluded, n, intents[last])| == n by { assert intents[last] in intents; }
      OneMoreTimes(last, n);
    }
  }

  /** The checks of the finished panel against the count, uniqueness and the exclusions. */
  predicate Sound(panel: seq<Row>, excluded: set<string>, n: int) {
    |panel| == LABELS * n && |IdsOf(panel)| == LABELS * n && IdsOf(panel) * excluded == {}
  }

  lemma SelectionIsSound(d: Digests, rows: seq<Row>, excluded: set<string>, n: int)
    requires Suitable(rows, excluded, n)
    ensures Sound(Selection(d, rows, excluded, n, SortedTexts(Intents(rows))), excluded, n)
  {
    var panel := Selection(d, rows, excluded, n, SortedTexts(Intents(rows)));
    SelectionIsPanel(d, rows, excluded, n);
    PanelDistinct(d, rows, excluded, n, panel);
    IdsCounted(panel);
    SortedTextsKeeps(Intents(rows));
    SelectionLength(d, rows, excluded, n, SortedTexts(Intents(rows)));
  }

  type Groups = map<string, seq<Row>>

  function GroupOf(groups: Groups, intent: string): seq<Row> { if intent in groups then groups[intent] else [] }

  ghost predicate GroupsOk(groups: Groups, rows: seq<Row>, excluded: set<string>) {
    forall l :: GroupOf(groups, l) == Candidates(rows, excluded, l)
  }

  ghost predicate RowsOk(rows: seq<Row>) {
    DistinctIds(rows) && forall i :: 0 <= i < |rows| ==> Heldout(rows[i].id)
  }

  /** Group the rows by label, refusing a row that is not held out or repeats an id. */
  method Group(rows: seq<Row>, excluded: set<string>) returns (r: Result<Groups, Fault>)
    ensures r.Ok? <==> RowsOk(rows)
    ensures r.Err? ==> r.error == NotHeldout || r.error == Duplicate
    ensures r.Ok? ==> GroupsOk(r.value, rows, excluded)
  {
    var groups: Groups, ids: set<string> := map[], {};
    for i := 0 to |rows|
      invariant ids == IdsOf(rows[..i]) && RowsOk(rows[..i]) && GroupsOk(groups, rows[..i], excluded)
    {
      var row := rows[i];
      IdsStep(rows, i);
      if !Heldout(row.id) { return Err(NotHeldout); }
      if row.id in ids { return Err(Duplicate); }
      ids := ids + {row.id};
      GroupStep(groups, rows, excluded, i);
      if row.id !in excluded {
        groups := groups[row.intent := GroupOf(groups, row.intent) + [row]];
      }
    }
    assert rows[..|rows|] == rows;
    r := Ok(groups);
  }

  lemma IdsStep(rows: seq<Row>, i: nat)
    requires i < |rows| && RowsOk(rows[..i])
    ensures IdsOf(rows[..i + 1]) == IdsOf(rows[..i]) + {rows[i].id}
    ensures Heldout(rows[i].id) && rows[i].id !in IdsOf(rows[..i]) ==> RowsOk(rows[..i + 1])
    ensures !Heldout(rows[i].id) || rows[i].id in IdsOf(rows[..i]) ==> !RowsOk(rows)
  {
    var before, more := rows[..i], rows[..i + 1];
    assert more == before + [rows[i]];
    assert more[i] == rows[i];
    forall k | 0 <= k < i ensures before[k].id in IdsOf(more) && more[k].id in IdsOf(before) {
      assert more[k] == before[k];
    }
    if rows[i].id in IdsOf(before) {
      var k :| 0 <= k < |before| && before[k].id == rows[i].id;
      assert rows[k].id == rows[i].id;
    }
  }

  lemma GroupStep(groups: Groups, rows: seq<Row>, excluded: set<string>, i: nat)
    requires i < |rows| && GroupsOk(groups, rows[..i], excluded)
    ensures var row := rows[i];
      GroupsOk(if row.id !in excluded then groups[row.intent := GroupOf(groups, row.intent) + [row]] else groups,
        rows[..i + 1], excluded)
  {
    var row := rows[i];
    assert rows[..i + 1][..i] == rows[..i];
    var after := if row.id !in excluded then groups[row.intent := GroupOf(groups, row.intent) + [row]] else groups;
    forall l ensures GroupOf(after, l) == Candidates(rows[..i + 1], excluded, l) {
      assert GroupOf(groups, l) == Candidates(rows[..i], excluded, l);
    }
  }

  /** The first rows of every label's ranking, label by label. */
  method Choose(d: Digests, groups: Groups, intents: seq<string>, n: nat, ghost rows: seq<Row>,
      ghost excluded: set<string>)
    returns (panel: seq<Row>)
    requires GroupsOk(groups, rows, excluded) && forall k :: 0 <= k < |intents| ==> |GroupOf(groups, intents[k])| >= n
    ensures panel == Selection(d, rows, excluded, n, intents)
  {
    panel := [];
    for k := 0 to |intents|
      invariant panel == Selection(d, rows, excluded, n, intents[..k])
    {
      var ranked := Ranked(d, GroupOf(groups, intents[k]));
      RankedLength(d, GroupOf(groups, intents[k]));
      assert intents[..k + 1][..k] == intents[..k];
      panel := panel + ranked[..n];
    }
    assert intents[..|intents|] == intents;
  }

  /**
   Freezing succeeds exactly for the suitable sources, and then with a panel of that source; the final check of the
   panel never fails. The digests are those of the rows and of the sorted exclusions.
   */
  method FreezePanel(d: Digests, rows: seq<Row>, exclusions: seq<string>, n: int) returns (r: Result<Frozen, Fault>)
    ensures r.Ok? <==> Suitable(rows, TextsOf(exclusions), n)
    ensures r != Err(Broken)
    ensures r.Ok? ==>
      && n >= 1 && r.value.rows == PanelOf(d, rows, TextsOf(exclusions), n)
      && IsPanel(d, rows, TextsOf(exclusions), n, r.value.rows) && Sound(r.value.rows, TextsOf(exclusions), n)
      && r.value == Frozen(r.value.rows, n, SortedTexts(exclusions), d.ofIds(SortedTexts(exclusions)),
        d.ofRows(r.value.rows))
  {
    var excluded := TextsOf(exclusions);
    if n < 1 { return Err(BadCount); }
    var grouped := Group(rows, excluded);
    if grouped.Err? { return Err(grouped.error); }
    var intents := SortedTexts(Intents(rows));
    if |intents| != LABELS { return Err(WrongLabels); }
    SuitableIff(rows, excluded, n, grouped.value);
    if exists k :: 0 <= k < |intents| && |GroupOf(grouped.value, intents[k])| < n { return Err(TooFew); }
    var panel := Choose(d, grouped.value, intents, n, rows, excluded);
    SelectionIsPanel(d, rows, excluded, n);
    SelectionIsSound(d, rows, excluded, n);
    var names := SortedTexts(exclusions);
    var frozen := Frozen(panel, n, names, d.ofIds(names), d.ofRows(panel));
    r := if Sound(panel, excluded, n) then Ok(frozen) else Err(Broken);
  }

  lemma SuitableIff(rows: seq<Row>, excluded: set<string>, n: int, groups: Groups)
    requires n >= 1 && RowsOk(rows) && GroupsOk(groups, rows, excluded) && |SortedTexts(Intents(rows))| == LABELS
    ensures var intents := SortedTexts(Intents(rows));
      Suitable(rows, excluded, n) <==> forall k :: 0 <= k < |intents| ==> |GroupOf(groups, intents[k])| >= n
  {
    var intents := SortedTexts(Intents(rows));
    SortedTextsKeeps(Intents(rows));
    forall l | l in Intents(rows) ensures exists k :: 0 <= k < |intents| && intents[k] == l {
      assert l in intents;
    }
    forall k | 0 <= k < |intents| ensures intents[k] in Intents(rows) {
      assert intents[k] in intents;
    }
  }

  // ----- order of the source, and the later checks -----

  /**
   The same rows in another order freeze to the same panel, when no candidate shares its selection hash with a chosen
   row of its label.
   */
  lemma OrderDoesNotMatter(d: Digests, a: seq<Row>, b: seq<Row>, excluded: set<string>, n: int, p: seq<Row>,
      q: seq<Row>)
    requires SameRows(a, b) && Suitable(a, excluded, n) && ClearCut(d, a, excluded, p)
    requires IsPanel(d, a, excluded, n, p) && IsPanel(d, b, excluded, n, q)
    ensures Suitable(b, excluded, n) && p == q
  {
    PermutedSuitable(a, b, excluded, n);
    assert SameRows(b, a);
    PermutedPanel(d, b, a, excluded, n, q);
    PanelIsUnique(d, a, excluded, n, p, q);
  }

  /** The panel that sorting, grouping and cutting gives. */
  function PanelOf(d: Digests, rows: seq<Row>, excluded: set<string>, n: nat): seq<Row> {
    Selection(d, rows, excluded, n, SortedTexts(Intents(rows)))
  }

  function Other(x: Row, r: Row, q: Row): Row { if x == r then q else if x == q then r else x }

  /** Two rows in each other's places. */
  function Swapped(s: seq<Row>, r: Row, q: Row): seq<Row> {
    seq(|s|, i requires 0 <= i < |s| => Other(s[i], r, q))
  }

  lemma SwappedPrefix(s: seq<Row>, k: nat, r: Row, q: Row)
    requires k <= |s|
    ensures Swapped(s, r, q)[..k] == Swapped(s[..k], r, q)
  {
  }

  lemma SwappedConcat(s: seq<Row>, t: seq<Row>, r: Row, q: Row)
    ensures Swapped(s + t, r, q) == Swapped(s, r, q) + Swapped(t, r, q)
  {
  }

  lemma {:induction false} CandidatesSwapped(d: Digests, rows: seq<Row>, excluded: set<string>, intent: string,
      r: Row, q: Row)
    requires Twins(d, r, q) && r.id !in excluded && q.id !in excluded
    ensures Candidates(Swapped(rows, r, q), excluded, intent) == Swapped(Candidates(rows, excluded, intent), r, q)
  {
    if rows != [] {
      var last := |rows| - 1;
      CandidatesSwapped(d, rows[..last], excluded, intent, r, q);
      SwappedPrefix(rows, last, r, q);
    }
  }

  lemma {:induction false} InsertSwapped(d: Digests, s: seq<Row>, x: Row, r: Row, q: Row)
    requires Twins(d, r, q)
    ensures InsertRow(d, Swapped(s, r, q), Other(x, r, q)) == Swapped(InsertRow(d, s, x), r, q)
  {
    if s != [] {
      InsertSwapped(d, s[..|s| - 1], x, r, q);
      SwappedPrefix(s, |s| - 1, r, q);
    }
  }

  lemma {:induction false} RankedSwapped(d: Digests, s: seq<Row>, r: Row, q: Row)
    requires Twins(d, r, q)
    ensures Ranked(d, Swapped(s, r, q)) == Swapped(Ranked(d, s), r, q)
  {
    if s != [] {
      var last := |s| - 1;
      RankedSwapped(d, s[..last], r, q);
      SwappedPrefix(s, last, r, q);
      InsertSwapped(d, Ranked(d, s[..last]), s[last], r, q);
    }
  }

  lemma {:induction false} SelectionSwapped(d: Digests, rows: seq<Row>, excluded: set<string>, n: nat,
      intents: seq<string>, r: Row, q: Row)
    requires Twins(d, r, q) && r.id !in excluded && q.id !in excluded
    ensures Selection(d, Swapped(rows, r, q), excluded, n, intents)
      == Swapped(Selection(d, rows, excluded, n, intents), r, q)
  {
    if intents != [] {
      var last := |intents| - 1;
      SelectionSwapped(d, rows, excluded, n, intents[..last], r, q);
      var chosen := Candidates(rows, excluded, intents[last]);
      CandidatesSwapped(d, rows, excluded, intents[last], r, q);
      RankedSwapped(d, chosen, r, q);
      SwappedPrefix(Ranked(d, chosen), Min(n, |Ranked(d, chosen)|), r, q);
      SwappedConcat(Selection(d, rows, excluded, n, intents[..last]), Chosen(d, rows, excluded, n, intents[last]),
        r, q);
    }
  }

  lemma SwappedSame(rows: seq<Row>, r: Row, q: Row)
    requires DistinctIds(rows) && r in rows && q in rows && r != q
    ensures SameRows(rows, Swapped(rows, r, q))
  {
    var i :| 0 <= i < |rows| && rows[i] == r;
    var j :| 0 <= j < |rows| && rows[j] == q;
    assert Swapped(rows, r, q) == rows[i := q][j := r];
  }

  /**
   Just when the order of a source does not matter to what is frozen: when no candidate shares its selection hash with
   another, chosen row of its label. If one does, the source with the two in each other's places freezes to a panel
   with the other one.
   */
  lemma OrderDoesNotMatterIff(d: Digests, rows: seq<Row>, excluded: set<string>, n: int)
    requires Suitable(rows, excluded, n)
    ensures (forall b :: SameRows(rows, b) ==> PanelOf(d, b, excluded, n) == PanelOf(d, rows, excluded, n))
      <==> ClearCut(d, rows, excluded, PanelOf(d, rows, excluded, n))
  {
    var panel := PanelOf(d, rows, excluded, n);
    SelectionIsPanel(d, rows, excluded, n);
    if ClearCut(d, rows, excluded, panel) {
      forall b | SameRows(rows, b) ensures PanelOf(d, b, excluded, n) == panel {
        PermutedSuitable(rows, b, excluded, n);
        SelectionIsPanel(d, b, excluded, n);
        OrderDoesNotMatter(d, rows, b, excluded, n, panel, PanelOf(d, b, excluded, n));
      }
    } else {
      var r, q :| r in panel && q in rows && q.id !in excluded && Twins(d, r, q) && r != q;
      PanelMembers(d, rows, excluded, n, panel, r);
      SwappedSame(rows, r, q);
      SwappedDiffers(d, rows, excluded, n, r, q);
      var b := Swapped(rows, r, q);
      assert SameRows(rows, b) && PanelOf(d, b, excluded, n) != panel;
    }
  }

  lemma SwappedDiffers(d: Digests, rows: seq<Row>, excluded: set<string>, n: nat, r: Row, q: Row)
    requires Twins(d, r, q) && r.id !in excluded && q.id !in excluded && r != q && r in PanelOf(d, rows, excluded, n)
    ensures PanelOf(d, Swapped(rows, r, q), excluded, n) != PanelOf(d, rows, excluded, n)
  {
    var panel := PanelOf(d, rows, excluded, n);
    SelectionSwapped(d, rows, excluded, n, SortedTexts(Intents(rows)), r, q);
    assert Intents(Swapped(rows, r, q)) == Intents(rows);
    var k :| 0 <= k < |panel| && panel[k] == r;
    assert Swapped(panel, r, q)[k] == q;
  }

  /** The panel and digest checks that are made before a receipt is looked at. */
  ghost predicate Passes(d: Digests, f: Frozen, train: set<string>, prior: set<string>) {
    && f.perIntent >= 1
    && |f.rows| == LABELS * f.perIntent && |IdsOf(f.rows)| == LABELS * f.perIntent
    && |TextsOf(Intents(f.rows))| == LABELS
    && (forall l :: l in Intents(f.rows) ==> |OfIntent(f.rows, l)| == f.perIntent)
    && f.panelDigest == d.ofRows(f.rows)
    && f.exclusionDigest == d.ofIds(SortedTexts(f.excluded))
    && IdsOf(f.rows) * TextsOf(f.excluded) == {}
    && (forall i :: 0 <= i < |f.rows| ==> Heldout(f.rows[i].id))
    && IdsOf(f.rows) * train == {} && IdsOf(f.rows) * prior == {}
  }

  lemma {:induction false} AscendingCounted(s: seq<string>)
    requires Ascending(s)
    ensures |TextsOf(s)| == |s|
  {
    if s != [] {
      var last := |s| - 1;
      AscendingCounted(s[..last]);
      assert TextsOf(s) == TextsOf(s[..last]) + {s[last]};
      forall i | 0 <= i < last ensures s[i] != s[last] { Asymmetric(s[i], s[last]); }
    }
  }

  lemma PanelIntents(d: Digests, rows: seq<Row>, excluded: set<string>, n: nat, panel: seq<Row>)
    requires IsPanel(d, rows, excluded, n, panel) && n >= 1
    ensures TextsOf(Intents(panel)) == TextsOf(SortedTexts(Intents(rows)))
    ensures forall l :: l in Intents(panel) ==> l in Intents(rows)
  {
    SortedTextsKeeps(Intents(rows));
    var intents := SortedTexts(Intents(rows));
    forall l ensures l in Intents(panel) <==> l in Intents(rows) {
      if l in Intents(panel) {
        var i :| 0 <= i < |panel| && Intents(panel)[i] == l;
        PanelMembers(d, rows, excluded, n, panel, panel[i]);
        IntentKnown(rows, panel[i]);
      }
      if l in Intents(rows) {
        OfIntentSome(panel, l);
      }
    }
    forall l ensures l in TextsOf(Intents(panel)) <==> l in TextsOf(intents) {
      assert l in TextsOf(Intents(panel)) <==> l in Intents(panel);
      assert l in TextsOf(intents) <==> l in intents;
    }
  }

  lemma {:induction false} OfIntentSome(s: seq<Row>, intent: string)
    ensures OfIntent(s, intent) != [] ==> intent in Intents(s)
  {
    if s != [] {
      var last := |s| - 1;
      OfIntentSome(s[..last], intent);
      assert Intents(s) == Intents(s[..last]) + [s[last].intent];
    }
  }

  /** Every frozen panel passes the checks, if the training and earlier panel ids were among the exclusions. */
  lemma FrozenPasses(d: Digests, rows: seq<Row>, exclusions: seq<string>, n: int, f: Frozen, train: set<string>,
      prior: set<string>)
    requires Suitable(rows, TextsOf(exclusions), n) && train <= TextsOf(exclusions) && prior <= TextsOf(exclusions)
    requires IsPanel(d, rows, TextsOf(exclusions), n, f.rows) && Sound(f.rows, TextsOf(exclusions), n)
    requires f == Frozen(f.rows, n, SortedTexts(exclusions), d.ofIds(SortedTexts(exclusions)), d.ofRows(f.rows))
    ensures Passes(d, f, train, prior)
  {
    var excluded := TextsOf(exclusions);
    PanelIntents(d, rows, excluded, n, f.rows);
    SortedTextsKeeps(Intents(rows));
    AscendingCounted(SortedTexts(Intents(rows)));
    SortedAgain(exclusions);
    forall i | 0 <= i < |f.rows| ensures Heldout(f.rows[i].id) {
      PanelMembers(d, rows, excluded, n, f.rows, f.rows[i]);
    }
  }

  /** Sorting sorted exclusions changes nothing, and sorting loses none. */
  lemma SortedAgain(s: seq<string>)
    ensures SortedTexts(SortedTexts(s)) == SortedTexts(s) && TextsOf(SortedTexts(s)) == TextsOf(s)
  {
    var t := SortedTexts(s);
    SortedTextsKeeps(s);
    SortedTextsKeeps(t);
    AscendingIsUnique(SortedTexts(t), t);
    forall x ensures x in TextsOf(t) <==> x in TextsOf(s) {
      assert x in TextsOf(t) <==> x in t;
      assert x in TextsOf(s) <==> x in s;
    }
  }

  /** Two rows with the same hash are kept in source order, so which one is chosen then does depend on it. */
  lemma TieFollowsSource(d: Digests, a: Row, b: Row)
    requires a.intent == b.intent && Hash(d, a) == Hash(d, b)
    ensures Chosen(d, [a, b], {}, 1, a.intent) == [a]
  {
    var rows := [a, b];
    Irreflexive(Hash(d, a));
    assert rows[..1] == [a] && rows[..1][..0] == [];
    assert Candidates(rows[..1], {}, a.intent) == [a];
    assert Candidates(rows, {}, a.intent) == rows;
    assert Ranked(d, rows[..1]) == [a];
    assert Ranked(d, rows) == rows;
  }
}
