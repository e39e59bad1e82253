/**
 The LLM policy's budget: a counter state that every turn changes, a usage journal that only grows, and the summary
 that is later folded from the journal alone.
 */
module Policy {
  import opened Basics

  /** `lower` is the case folding applied to action names. */
  datatype Config = Config(
    maxCalls: int, maxUsd: real, usdIn: real, usdOut: real, usdCached: real, planMax: int, lower: string -> string)

  datatype Usage = Usage(prompt: int, completion: int, cached: int)

  /** A reply's text: the action list of its JSON object, if there is one, and its bare words, all folded. */
  datatype Text = Text(json: Option<seq<string>>, words: seq<string>)

  datatype Reply = RouteFailed(elapsed: real) | Answered(text: Text, usage: Usage, elapsed: real)

  datatype Turn = Turn(ply: int, valid: seq<string>, reply: Reply)

  datatype Entry =
    | Exhausted(reason: string, ply: int)
    | RouteError(ply: int, elapsed: real)
    | PolicyCall(ply: int, usage: Usage, usd: real, elapsed: real, plan: seq<string>)

  datatype State = State(
    calls: nat, prompt: int, completion: int, cached: int, usd: real,
    exhausted: Option<string>, at: Option<int>, filler: nat, errors: nat, journal: seq<Entry>)

  datatype Choice = NoActions | Chosen(actions: seq<string>, stop: bool)

  const START: State := State(0, 0, 0, 0, 0.0, None, None, 0, 0, [])

  function Cost(c: Config, u: Usage): real {
    var uncached := Max(0, u.prompt - u.cached);
    uncached as real * c.usdIn / 1000000.0 + u.cached as real * c.usdCached / 1000000.0
      + u.completion as real * c.usdOut / 1000000.0
  }

  // ----- plans -----

  /** The last of the valid actions that folds to a word. */
  function Legal(c: Config, valid: seq<string>, word: string): Option<string> {
    if valid == [] then None
    else if c.lower(valid[|valid| - 1]) == word then Some(valid[|valid| - 1])
    else Legal(c, valid[..|valid| - 1], word)
  }

  function Kept(c: Config, valid: seq<string>, words: seq<string>): seq<string> {
    if words == [] then []
    else
      var last := Legal(c, valid, words[|words| - 1]);
      Kept(c, valid, words[..|words| - 1]) + if last.Some? then [last.value] else []
  }

  /** Python's `s[:n]`: a negative bound counts from the end. */
  function Take(s: seq<string>, n: int): seq<string> {
    if n >= 0 then s[..Min(n, |s|)] else s[..Max(0, |s| + n)]
  }

  function ParsePlan(c: Config, text: Text, valid: seq<string>): seq<string> {
    var listed := if text.json.Some? then text.json.value else [];
    Take(Kept(c, valid, if listed != [] then listed else text.words), c.planMax)
  }

  lemma {:induction false} LegalIsValid(c: Config, valid: seq<string>, word: string)
    ensures var a := Legal(c, valid, word);
      && (a.Some? ==> a.value in valid && c.lower(a.value) == word)
      && (a.None? ==> forall v :: v in valid ==> c.lower(v) != word)
  {
    if valid != [] {
      LegalIsValid(c, valid[..|valid| - 1], word);
      assert valid == valid[..|valid| - 1] + [valid[|valid| - 1]];
    }
  }

  lemma {:induction false} KeptIsValid(c: Config, valid: seq<string>, words: seq<string>)
    ensures |Kept(c, valid, words)| <= |words|
    ensures forall a :: a in Kept(c, valid, words) ==> a in valid && c.lower(a) in words
  {
    if words != [] {
      KeptIsValid(c, valid, words[..|words| - 1]);
      LegalIsValid(c, valid, words[|words| - 1]);
    }
  }

  /**
   Every action of a plan is one of the valid actions and one the reply named; a plan is never longer than the
   bound.
   */
  lemma PlanIsLegal(c: Config, text: Text, valid: seq<string>)
    ensures var plan := ParsePlan(c, text, valid);
      && (forall a :: a in plan ==> a in valid)
      && (forall a :: a in plan ==> c.lower(a) in text.words || (text.json.Some? && c.lower(a) in text.json.value))
      && (c.planMax >= 0 ==> |plan| <= c.planMax)
  {
    var listed := if text.json.Some? then text.json.value else [];
    KeptIsValid(c, valid, if listed != [] then listed else text.words);
  }

  /** The action that a word names: the last of the valid ones that folds to it. */
  ghost predicate Names(c: Config, valid: seq<string>, word: string, action: string) {
    exists i :: 0 <= i < |valid| && valid[i] == action && c.lower(action) == word
      && forall j :: i < j < |valid| ==> c.lower(valid[j]) != word
  }

  ghost predicate Nameable(c: Config, valid: seq<string>, word: string) {
    exists i :: 0 <= i < |valid| && c.lower(valid[i]) == word
  }

  lemma {:induction false} LegalIsNamed(c: Config, valid: seq<string>, word: string)
    ensures var a := Legal(c, valid, word);
      (a.Some? <==> Nameable(c, valid, word)) && (a.Some? ==> Names(c, valid, word, a.value))
  {
    if valid != [] {
      var last := |valid| - 1;
      LegalIsNamed(c, valid[..last], word);
      if c.lower(valid[last]) != word && Nameable(c, valid[..last], word) {
        var i :| 0 <= i < last && valid[..last][i] == Legal(c, valid[..last], word).value
          && c.lower(valid[..last][i]) == word && forall j :: i < j < last ==> c.lower(valid[..last][j]) != word;
        assert forall j :: i < j < |valid| ==> j == last || valid[..last][j] == valid[j];
        assert valid[i] == valid[..last][i];
      }
    }
  }

  /** The kept actions are those that the words at these places name, in the order of the words. */
  ghost predicate KeptFrom(c: Config, valid: seq<string>, words: seq<string>, at: seq<nat>, kept: seq<string>) {
    && |at| == |kept|
    && (forall k :: 0 <= k < |at| ==> at[k] < |words| && Names(c, valid, words[at[k]], kept[k]))
    && (forall k, m :: 0 <= k < m < |at| ==> at[k] < at[m])
    && (forall i :: 0 <= i < |words| && Nameable(c, valid, words[i]) ==> i in at)
  }

  lemma NamedIsKept(c: Config, valid: seq<string>, words: seq<string>, at: seq<nat>, kept: seq<string>, word: string,
      action: string)
    requires KeptFrom(c, valid, words, at, kept) && Names(c, valid, word, action)
    ensures KeptFrom(c, valid, words + [word], at + [|words|], kept + [action])
  {
    var more, places := words + [word], at + [|words|];
    forall i | 0 <= i < |more| && Nameable(c, valid, more[i]) ensures i in places {
      assert i < |words| ==> more[i] == words[i];
      assert places[|at|] == |words|;
    }
  }

  lemma OtherIsNot(c: Config, valid: seq<string>, words: seq<string>, at: seq<nat>, kept: seq<string>, word: string)
    requires KeptFrom(c, valid, words, at, kept) && !Nameable(c, valid, word)
    ensures KeptFrom(c, valid, words + [word], at, kept)
  {
    var more := words + [word];
    forall i | 0 <= i < |more| && Nameable(c, valid, more[i]) ensures i in at {
      assert i < |words| ==> more[i] == words[i];
    }
  }

  /** Every word that names a valid action is kept as that action, in order, and nothing else is. */
  lemma {:induction false} KeptInOrder(c: Config, valid: seq<string>, words: seq<string>) returns (at: seq<nat>)
    ensures KeptFrom(c, valid, words, at, Kept(c, valid, words))
  {
    at := [];
    if words != [] {
      var last := |words| - 1;
      at := KeptInOrder(c, valid, words[..last]);
      LegalIsNamed(c, valid, words[last]);
      assert words[..last] + [words[last]] == words;
      var named := Legal(c, valid, words[last]);
      if named.Some? {
        NamedIsKept(c, valid, words[..last], at, Kept(c, valid, words[..last]), words[last], named.value);
        at := at + [last];
      } else {
        OtherIsNot(c, valid, words[..last], at, Kept(c, valid, words[..last]), words[last]);
      }
    }
  }

  /**
   A plan is the beginning of what the reply names: of its listed actions, or of its bare words if it lists none, each
   that names a valid action, in the order of the reply, up to the bound.
   */
  lemma PlanFollowsReply(c: Config, text: Text, valid: seq<string>) returns (at: seq<nat>, named: seq<string>)
    ensures
      var listed := if text.json.Some? then text.json.value else [];
      KeptFrom(c, valid, if listed != [] then listed else text.words, at, named)
    ensures
      var plan := ParsePlan(c, text, valid);
      plan <= named && (c.planMax >= 0 ==> |plan| == Min(c.planMax, |named|))
  {
    var listed := if text.json.Some? then text.json.value else [];
    at := KeptInOrder(c, valid, if listed != [] then listed else text.words);
    named := Kept(c, valid, if listed != [] then listed else text.words);
  }

  // ----- one turn -----

  function Exhaust(s: State, reason: string, ply: int): State {
    var t := if s.exhausted.Some? then s
             else s.(exhausted := Some(reason), at := Some(ply), journal := s.journal + [Exhausted(reason, ply)]);
    t.(filler := s.filler + 1)
  }

  /** The reason not to call the model at all. */
  function Stop(c: Config, s: State): Option<string> {
    if s.exhausted.Some? then s.exhausted
    else if s.calls >= c.maxCalls then Some("call cap reached")
    else if s.usd >= c.maxUsd then Some("spend cap reached")
    else None
  }

  function Failed(s: State, ply: int, elapsed: real): State {
    s.(errors := s.errors + 1, journal := s.journal + [RouteError(ply, elapsed)])
  }

  function Charged(s: State, ply: int, u: Usage, usd: real, elapsed: real, plan: seq<string>): State {
    s.(calls := s.calls + 1, prompt := s.prompt + u.prompt, completion := s.completion + u.completion,
      cached := s.cached + u.cached, usd := s.usd + usd,
      journal := s.journal + [PolicyCall(ply, u, usd, elapsed, plan)])
  }

  function Called(c: Config, s: State, t: Turn): State
    requires t.reply.Answered?
  {
    var u := t.reply.usage;
    Charged(s, t.ply, u, Cost(c, u), t.reply.elapsed, ParsePlan(c, t.reply.text, t.valid))
  }

  function After(c: Config, s: State, t: Turn): State {
    if t.valid == [] then s
    else if Stop(c, s).Some? then Exhaust(s, Stop(c, s).value, t.ply)
    else
      match t.reply
      case RouteFailed(elapsed) =>
        var f := Failed(s, t.ply, elapsed);
        if f.errors >= 3 then Exhaust(f, "route failed 3 times", t.ply) else f
      case Answered(_, _, _) => Called(c, s, t)
  }

  function Fallback(valid: seq<string>): string
    requires valid != []
  {
    if "noop" in valid then "noop" else valid[0]
  }

  class Player {
    var state: State

    constructor ()
      ensures state == START
    {
      state := START;
    }

    method StopEpisode(reason: string, ply: int) returns (choice: Choice)
      modifies this
      ensures state == Exhaust(old(state), reason, ply) && choice == Chosen([], true)
    {
      if state.exhausted.None? {
        state := state.(exhausted := Some(reason), at := Some(ply),
          journal := state.journal + [Exhausted(reason, ply)]);
      }
      state := state.(filler := state.filler + 1);
      choice := Chosen([], true);
    }

    /**
     Nothing is done for a turn without valid actions; every other choice is legal, and an empty one ends the
     episode.
     */
    method ChooseActions(c: Config, t: Turn) returns (choice: Choice)
      modifies this
      ensures state == After(c, old(state), t)
      ensures choice.NoActions? <==> t.valid == []
      ensures choice.Chosen? ==>
        && (forall a :: a in choice.actions ==> a in t.valid)
        && (choice.stop <==> choice.actions == []) && (choice.stop <==> state.exhausted.Some?)
        && (c.planMax >= 1 ==> |choice.actions| <= c.planMax)
      ensures choice.Chosen? && !choice.stop ==>
        var last := state.journal[|state.journal| - 1];
        choice.actions ==
          if last.PolicyCall? && last.plan != [] then last.plan
          else if "noop" in t.valid then ["noop"] else [t.valid[0]]
    {
      if t.valid == [] { return NoActions; }
      var fallback := Fallback(t.valid);
      var stop := Stop(c, state);
      if stop.Some? {
        choice := StopEpisode(stop.value, t.ply);
        return;
      }
      match t.reply
      case RouteFailed(elapsed) =>
        state := state.(errors := state.errors + 1, journal := state.journal + [RouteError(t.ply, elapsed)]);
        if state.errors >= 3 {
          choice := StopEpisode("route failed 3 times", t.ply);
        } else {
          choice := Chosen([fallback], false);
        }
      case Answered(text, usage, elapsed) =>
        var usd, plan := Cost(c, usage), ParsePlan(c, text, t.valid);
        PlanIsLegal(c, text, t.valid);
        state := state.(calls := state.calls + 1, prompt := state.prompt + usage.prompt,
          completion := state.completion + usage.completion, cached := state.cached + usage.cached,
          usd := state.usd + usd);
        state := state.(journal := state.journal + [PolicyCall(t.ply, usage, usd, elapsed, plan)]);
        choice := Chosen(if plan == [] then [fallback] else plan, false);
    }
  }

  // ----- the summary -----

  datatype Summary = Summary(
    calls: nat, prompt: int, completion: int, cached: int, usd: real, errors: nat, seconds: real,
    exhausted: Option<string>, at: Option<int>)

  const EMPTY: Summary := Summary(0, 0, 0, 0, 0.0, 0, 0.0, None, None)

  function Fold(s: Summary, e: Entry): Summary {
    match e
    case Exhausted(reason, ply) =>
      s.(exhausted := Some(if reason == "" then "budget exhausted" else reason), at := Some(ply))
    case RouteError(_, elapsed) => s.(seconds := s.seconds + elapsed, errors := s.errors + 1)
    case PolicyCall(_, u, usd, elapsed, _) =>
      s.(seconds := s.seconds + elapsed, calls := s.calls + 1, prompt := s.prompt + u.prompt,
         completion := s.completion + u.completion, cached := s.cached + u.cached, usd := s.usd + usd)
  }

  function Folded(journal: seq<Entry>): Summary {
    if journal == [] then EMPTY else Fold(Folded(journal[..|journal| - 1]), journal[|journal| - 1])
  }

  /** The entries of a file; blank lines and lines that are not JSON are passed over. */
  function Entries(lines: seq<Option<Entry>>): seq<Entry> {
    if lines == [] then []
    else Entries(lines[..|lines| - 1]) + if lines[|lines| - 1].Some? then [lines[|lines| - 1].value] else []
  }

  method SummarizeUsage(lines: seq<Option<Entry>>) returns (summary: Summary)
    ensures summary == Folded(Entries(lines))
  {
    summary := EMPTY;
    for i := 0 to |lines|
      invariant summary == Folded(Entries(lines[..i]))
    {
      assert lines[..i + 1][..i] == lines[..i];
      if lines[i].Some? {
        FoldedOneMore(Entries(lines[..i]), lines[i].value);
        summary := Fold(summary, lines[i].value);
      } else {
        assert Entries(lines[..i + 1]) == Entries(lines[..i]);
      }
    }
    assert lines[..|lines|] == lines;
  }

  lemma FoldedOneMore(journal: seq<Entry>, e: Entry)
    ensures Folded(journal + [e]) == Fold(Folded(journal), e)
  {
    assert (journal + [e])[..|journal|] == journal;
  }

  // ----- every run -----

  /** The live counters are what the journal folds to. */
  predicate Agrees(s: State, f: Summary) {
    && f.calls == s.calls && f.prompt == s.prompt && f.completion == s.completion && f.cached == s.cached
    && f.usd == s.usd && f.errors == s.errors && f.exhausted == s.exhausted && f.at == s.at
  }

  /** One exhaustion row at most, and nothing after it. */
  ghost predicate EndsOnce(s: State) {
    && (forall k :: 0 <= k < |s.journal| && s.journal[k].Exhausted? ==> k == |s.journal| - 1 && s.exhausted.Some?)
    && (s.exhausted.Some? ==> s.journal != [] && s.journal[|s.journal| - 1].Exhausted? && s.exhausted.value != "")
  }

  /** Before every paid call the calls and the spend so far were below their caps. */
  ghost predicate PaidWithin(c: Config, journal: seq<Entry>) {
    forall k :: 0 <= k < |journal| && journal[k].PolicyCall? ==>
      Folded(journal[..k]).usd < c.maxUsd && Folded(journal[..k]).calls < c.maxCalls && Folded(journal[..k]).errors < 3
  }

  ghost predicate Inv(c: Config, s: State) {
    && Agrees(s, Folded(s.journal))
    && EndsOnce(s) && PaidWithin(c, s.journal)
    && s.calls <= Max(0, c.maxCalls) && s.errors <= 3 && (s.errors == 3 ==> s.exhausted.Some?)
  }

  lemma PaidOneMore(c: Config, journal: seq<Entry>, e: Entry)
    requires PaidWithin(c, journal)
    requires e.PolicyCall? ==>
      Folded(journal).usd < c.maxUsd && Folded(journal).calls < c.maxCalls && Folded(journal).errors < 3
    ensures PaidWithin(c, journal + [e])
  {
    var more := journal + [e];
    forall k | 0 <= k < |more| && more[k].PolicyCall?
      ensures Folded(more[..k]).usd < c.maxUsd && Folded(more[..k]).calls < c.maxCalls && Folded(more[..k]).errors < 3
    {
      assert more[..k] == journal[..k];
      if k == |journal| { assert journal[..k] == journal; }
    }
  }

  lemma ExhaustKeeps(c: Config, s: State, reason: string, ply: int)
    requires reason != "" && PaidWithin(c, s.journal) && EndsOnce(s) && Agrees(s, Folded(s.journal))
    requires s.calls <= Max(0, c.maxCalls) && s.errors <= 3
    ensures Inv(c, Exhaust(s, reason, ply))
  {
    FoldedOneMore(s.journal, Exhausted(reason, ply));
    PaidOneMore(c, s.journal, Exhausted(reason, ply));
  }

  lemma FailKeeps(c: Config, s: State, ply: int, elapsed: real)
    requires Inv(c, s) && Stop(c, s).None?
    ensures
      var f := Failed(s, ply, elapsed);
      Inv(c, if f.errors >= 3 then Exhaust(f, "route failed 3 times", ply) else f)
  {
    var f := Failed(s, ply, elapsed);
    FoldedOneMore(s.journal, RouteError(ply, elapsed));
    PaidOneMore(c, s.journal, RouteError(ply, elapsed));
    assert Agrees(f, Folded(f.journal)) && EndsOnce(f);
    if f.errors >= 3 {
      ExhaustKeeps(c, f, "route failed 3 times", ply);
    }
  }

  lemma TurnKeeps(c: Config, s: State, t: Turn)
    requires Inv(c, s)
    ensures Inv(c, After(c, s, t))
  {
    if t.valid != [] {
      if Stop(c, s).Some? {
        assert After(c, s, t) == Exhaust(s, Stop(c, s).value, t.ply);
        ExhaustKeeps(c, s, Stop(c, s).value, t.ply);
      } else {
        match t.reply
        case RouteFailed(elapsed) =>
          FailKeeps(c, s, t.ply, elapsed);
        case Answered(_, _, _) =>
          assert After(c, s, t) == Called(c, s, t);
          CallKeeps(c, s, t);
      }
    }
  }

  lemma CallKeeps(c: Config, s: State, t: Turn)
    requires Inv(c, s) && Stop(c, s).None? && t.reply.Answered?
    ensures Inv(c, Called(c, s, t))
  {
    var u := t.reply.usage;
    ChargeKeeps(c, s, t.ply, u, Cost(c, u), t.reply.elapsed, ParsePlan(c, t.reply.text, t.valid));
  }

  lemma ChargeKeeps(c: Config, s: State, ply: int, u: Usage, usd: real, elapsed: real, plan: seq<string>)
    requires Inv(c, s) && Stop(c, s).None?
    ensures Inv(c, Charged(s, ply, u, usd, elapsed, plan))
  {
    ChargeAgrees(s, ply, u, usd, elapsed, plan);
    ChargeEndsOnce(s, ply, u, usd, elapsed, plan);
    PaidOneMore(c, s.journal, PolicyCall(ply, u, usd, elapsed, plan));
  }

  lemma ChargeAgrees(s: State, ply: int, u: Usage, usd: real, elapsed: real, plan: seq<string>)
    requires Agrees(s, Folded(s.journal))
    ensures var next := Charged(s, ply, u, usd, elapsed, plan); Agrees(next, Folded(next.journal))
  {
    FoldedOneMore(s.journal, PolicyCall(ply, u, usd, elapsed, plan));
  }

  lemma ChargeEndsOnce(s: State, ply: int, u: Usage, usd: real, elapsed: real, plan: seq<string>)
    requires EndsOnce(s) && s.exhausted.None?
    ensures EndsOnce(Charged(s, ply, u, usd, elapsed, plan))
  {
  }

  function Run(c: Config, turns: seq<Turn>): State {
    if turns == [] then START else After(c, Run(c, turns[..|turns| - 1]), turns[|turns| - 1])
  }

  lemma {:induction false} RunKeeps(c: Config, turns: seq<Turn>)
    ensures Inv(c, Run(c, turns))
  {
    if turns != [] {
      RunKeeps(c, turns[..|turns| - 1]);
      TurnKeeps(c, Run(c, turns[..|turns| - 1]), turns[|turns| - 1]);
    }
  }

  /**
   In every run: the journal alone gives back the live counters; there is at most one exhaustion row, and it is
   last; the calls stay within their cap and route errors within three; and every paid call was made below both
   caps.
   */
  lemma JournalTellsAll(c: Config, turns: seq<Turn>)
    ensures var s := Run(c, turns);
      && Agrees(s, Folded(s.journal))
      && (forall k :: 0 <= k < |s.journal| && s.journal[k].Exhausted? ==> k == |s.journal| - 1)
      && s.calls <= Max(0, c.maxCalls) && s.errors <= 3 && PaidWithin(c, s.journal)
  {
    RunKeeps(c, turns);
  }

  /**
   Once exhausted, a policy never calls again: only the filler count moves, with one filler step for each further
   turn.
   */
  lemma {:induction false} ExhaustedForever(c: Config, turns: seq<Turn>, more: seq<Turn>)
    requires Run(c, turns).exhausted.Some? && forall i :: 0 <= i < |more| ==> more[i].valid != []
    ensures Run(c, turns + more) == Run(c, turns).(filler := Run(c, turns).filler + |more|)
  {
    if more == [] {
      assert turns + more == turns;
    } else {
      var last := |more| - 1;
      ExhaustedForever(c, turns, more[..last]);
      assert (turns + more)[..|turns| + last] == turns + more[..last];
    }
  }

  /** The turns that ask for a decision. */
  function Asked(turns: seq<Turn>): nat {
    if turns == [] then 0 else Asked(turns[..|turns| - 1]) + if turns[|turns| - 1].valid != [] then 1 else 0
  }

  /** The turns accounted for. */
  function Handled(s: State): int { s.calls + s.errors + s.filler - if s.errors == 3 then 1 else 0 }

  lemma OneHandled(c: Config, s: State, t: Turn)
    requires s.errors <= 3 && (s.errors == 3 ==> s.exhausted.Some?)
    ensures Handled(After(c, s, t)) == Handled(s) + if t.valid != [] then 1 else 0
  {
  }

  /**
   Every turn that asks for a decision is a paid call, a route error or a filler step, and only the third error is
   also a filler step.
   */
  lemma {:induction false} TurnsAccounted(c: Config, turns: seq<Turn>)
    ensures Asked(turns) == Handled(Run(c, turns))
  {
    if turns != [] {
      var before := turns[..|turns| - 1];
      TurnsAccounted(c, before);
      RunKeeps(c, before);
      OneHandled(c, Run(c, before), turns[|turns| - 1]);
    }
  }

  /** The reason that stopped the model is true: the cap it names was reached, or the route failed three times. */
  ghost predicate TrueReason(c: Config, s: State) {
    s.exhausted.Some? ==>
      || (s.exhausted.value == "call cap reached" && s.calls >= c.maxCalls)
      || (s.exhausted.value == "spend cap reached" && s.usd >= c.maxUsd && s.calls < c.maxCalls)
      || (s.exhausted.value == "route failed 3 times" && s.errors == 3)
  }

  lemma {:induction false} ExhaustedForAReason(c: Config, turns: seq<Turn>)
    ensures TrueReason(c, Run(c, turns))
  {
    if turns != [] {
      var before := turns[..|turns| - 1];
      ExhaustedForAReason(c, before);
      RunKeeps(c, before);
    }
  }

  /** The time spent on calls, by the turns: replies count, errors too, until the model is stopped. */
  function Spent(c: Config, turns: seq<Turn>): real {
    if turns == [] then 0.0
    else
      var before, t := turns[..|turns| - 1], turns[|turns| - 1];
      Spent(c, before) + if t.valid != [] && Stop(c, Run(c, before)).None? then t.reply.elapsed else 0.0
  }

  lemma AfterSpends(c: Config, s: State, t: Turn)
    ensures Folded(After(c, s, t).journal).seconds ==
      Folded(s.journal).seconds + if t.valid != [] && Stop(c, s).None? then t.reply.elapsed else 0.0
  {
    var after := After(c, s, t);
    if t.valid != [] {
      if Stop(c, s).Some? {
        FoldedOneMore(s.journal, Exhausted(Stop(c, s).value, t.ply));
      } else {
        match t.reply
        case Answered(_, _, _) => FoldedOneMore(s.journal, after.journal[|s.journal|]);
        case RouteFailed(elapsed) =>
          FoldedOneMore(s.journal, RouteError(t.ply, elapsed));
          FoldedOneMore(Failed(s, t.ply, elapsed).journal, Exhausted("route failed 3 times", t.ply));
      }
    }
  }

  /** The summary's seconds are the time that the run spent on calls. */
  lemma {:induction false} SecondsTell(c: Config, turns: seq<Turn>)
    ensures Folded(Run(c, turns).journal).seconds == Spent(c, turns)
  {
    if turns != [] {
      var before := turns[..|turns| - 1];
      SecondsTell(c, before);
      AfterSpends(c, Run(c, before), turns[|turns| - 1]);
    }
  }

  // ----- dollars -----

  function Totals(s: State): Usage { Usage(s.prompt, s.completion, s.cached) }

  /** The prompt tokens that were charged as not cached: call by call, what the cached ones leave. */
  function Uncached(journal: seq<Entry>): nat {
    if journal == [] then 0
    else
      var e := journal[|journal| - 1];
      Uncached(journal[..|journal| - 1]) + if e.PolicyCall? then Max(0, e.usage.prompt - e.usage.cached) else 0
  }

  /** The cached tokens reported beyond the prompt they are part of. */
  function Excess(journal: seq<Entry>): nat {
    if journal == [] then 0
    else
      var e := journal[|journal| - 1];
      Excess(journal[..|journal| - 1]) + if e.PolicyCall? then Max(0, e.usage.cached - e.usage.prompt) else 0
  }

  predicate WithinPrompt(e: Entry) { e.PolicyCall? ==> e.usage.cached <= e.usage.prompt }

  predicate BeyondPrompt(e: Entry) { e.PolicyCall? ==> e.usage.prompt <= e.usage.cached }

  /** The paid calls are on one side: all report at most their prompt as cached, or all at least. */
  ghost predicate OneSided(journal: seq<Entry>) {
    || (forall k :: 0 <= k < |journal| ==> WithinPrompt(journal[k]))
    || (forall k :: 0 <= k < |journal| ==> BeyondPrompt(journal[k]))
  }

  lemma {:induction false} NoneIffAll(journal: seq<Entry>)
    ensures Excess(journal) == 0 <==> forall k :: 0 <= k < |journal| ==> WithinPrompt(journal[k])
    ensures Uncached(journal) == 0 <==> forall k :: 0 <= k < |journal| ==> BeyondPrompt(journal[k])
  {
    if journal != [] {
      var last := |journal| - 1;
      NoneIffAll(journal[..last]);
      assert forall k :: 0 <= k < last ==> journal[..last][k] == journal[k];
    }
  }

  lemma OneSidedIff(journal: seq<Entry>)
    ensures OneSided(journal) <==> Min(Uncached(journal), Excess(journal)) == 0
  {
    NoneIffAll(journal);
  }

  /** A million times the dollars, with so many input tokens charged as not cached. */
  function Price(c: Config, uncached: nat, u: Usage): real {
    uncached as real * c.usdIn + u.cached as real * c.usdCached + u.completion as real * c.usdOut
  }

  function Plus(u: Usage, v: Usage): Usage {
    Usage(u.prompt + v.prompt, u.completion + v.completion, u.cached + v.cached)
  }

  lemma Scales(a: int, b: int, rate: real)
    ensures (a + b) as real * rate == a as real * rate + b as real * rate
  {
  }

  lemma CostIsPrice(c: Config, u: Usage)
    ensures Cost(c, u) * 1000000.0 == Price(c, Max(0, u.prompt - u.cached), u)
  {
  }

  lemma PriceAdds(c: Config, a: nat, u: Usage, b: nat, v: Usage)
    ensures Price(c, a + b, Plus(u, v)) == Price(c, a, u) + Price(c, b, v)
  {
    Scales(a, b, c.usdIn);
    Scales(u.cached, v.cached, c.usdCached);
    Scales(u.completion, v.completion, c.usdOut);
  }

  lemma CountedEntry(journal: seq<Entry>, e: Entry)
    ensures Uncached(journal + [e]) == Uncached(journal) +
      if e.PolicyCall? then Max(0, e.usage.prompt - e.usage.cached) else 0
    ensures Excess(journal + [e]) == Excess(journal) +
      if e.PolicyCall? then Max(0, e.usage.cached - e.usage.prompt) else 0
  {
    assert (journal + [e])[..|journal|] == journal;
  }

  /** Token totals and dollars against what the journal counts. */
  predicate Balanced(c: Config, u: Usage, usd: real, uncached: nat, excess: nat) {
    u.prompt - u.cached == uncached - excess && usd * 1000000.0 == Price(c, uncached, u)
  }

  predicate Priced(c: Config, s: State) {
    Balanced(c, Totals(s), s.usd, Uncached(s.journal), Excess(s.journal))
  }

  lemma ExhaustPriced(c: Config, s: State, reason: string, ply: int)
    requires Priced(c, s)
    ensures Priced(c, Exhaust(s, reason, ply))
  {
    CountedEntry(s.journal, Exhausted(reason, ply));
  }

  lemma FailedPriced(c: Config, s: State, ply: int, elapsed: real)
    requires Priced(c, s)
    ensures Priced(c, Failed(s, ply, elapsed))
  {
    CountedEntry(s.journal, RouteError(ply, elapsed));
  }

  lemma CalledPriced(c: Config, s: State, t: Turn)
    requires Priced(c, s) && t.reply.Answered?
    ensures Priced(c, Called(c, s, t))
  {
    var u, next := t.reply.usage, Called(c, s, t);
    CountedEntry(s.journal, next.journal[|s.journal|]);
    BalancedPlus(c, Totals(s), s.usd, Uncached(s.journal), Excess(s.journal), u);
    assert Totals(next) == Plus(Totals(s), u);
  }

  lemma BalancedPlus(c: Config, u: Usage, usd: real, uncached: nat, excess: nat, v: Usage)
    requires Balanced(c, u, usd, uncached, excess)
    ensures Balanced(c, Plus(u, v), usd + Cost(c, v), uncached + Max(0, v.prompt - v.cached),
      excess + Max(0, v.cached - v.prompt))
  {
    CostIsPrice(c, v);
    PriceAdds(c, uncached, u, Max(0, v.prompt - v.cached), v);
  }

  lemma TurnPriced(c: Config, s: State, t: Turn)
    requires Priced(c, s)
    ensures Priced(c, After(c, s, t))
  {
    if t.valid != [] {
      if Stop(c, s).Some? {
        ExhaustPriced(c, s, Stop(c, s).value, t.ply);
      } else {
        match t.reply
        case RouteFailed(elapsed) =>
          FailedPriced(c, s, t.ply, elapsed);
          ExhaustPriced(c, Failed(s, t.ply, elapsed), "route failed 3 times", t.ply);
        case Answered(_, _, _) =>
          CalledPriced(c, s, t);
      }
    }
  }

  lemma {:induction false} RunPriced(c: Config, turns: seq<Turn>)
    ensures Priced(c, Run(c, turns))
  {
    if turns != [] {
      var last := |turns| - 1;
      RunPriced(c, turns[..last]);
      TurnPriced(c, Run(c, turns[..last]), turns[last]);
    }
  }

  /**
   What charging call by call adds to the price of the token totals: the input price of the tokens that one call
   reports as cached beyond its prompt and another leaves uncached.
   */
  predicate ChargedOver(c: Config, s: State) {
    (s.usd - Cost(c, Totals(s))) * 1000000.0 == Min(Uncached(s.journal), Excess(s.journal)) as real * c.usdIn
  }

  lemma PricedOver(c: Config, s: State)
    requires Priced(c, s)
    ensures ChargedOver(c, s)
  {
    var uncached: int, excess: int := Uncached(s.journal), Excess(s.journal);
    CostIsPrice(c, Totals(s));
    Scales(Max(0, uncached - excess), Min(uncached, excess), c.usdIn);
    assert Max(0, uncached - excess) + Min(uncached, excess) == uncached;
  }

  /** The dollars are the price of the token totals. */
  predicate DollarsTell(c: Config, s: State) { s.usd == Cost(c, Totals(s)) }

  lemma OverIff(c: Config, s: State)
    requires ChargedOver(c, s)
    ensures DollarsTell(c, s) <==> c.usdIn == 0.0 || OneSided(s.journal)
  {
    OneSidedIff(s.journal);
    ZeroProduct(Min(Uncached(s.journal), Excess(s.journal)) as real, c.usdIn);
  }

  /**
   In every run, the dollars are the price of the token totals if and only if input tokens are free, or the paid
   calls all report cached counts within their prompts, or all report them at or beyond.
   */
  lemma DollarsPriceTokens(c: Config, turns: seq<Turn>)
    ensures
      var s := Run(c, turns);
      && ChargedOver(c, s)
      && (DollarsTell(c, s) <==> c.usdIn == 0.0 || OneSided(s.journal))
  {
    RunPriced(c, turns);
    PricedOver(c, Run(c, turns));
    OverIff(c, Run(c, turns));
  }

  lemma ZeroProduct(a: real, b: real)
    ensures a * b == 0.0 <==> a == 0.0 || b == 0.0
  {
  }

  /** An answered turn with an empty reply. */
  function Paid(ply: int, action: string, u: Usage): Turn { Turn(ply, [action], Answered(Text(None, []), u, 0.0)) }

  /**
   A run of two calls, the first with more cached than prompt tokens and the second with fewer: it costs more than
   its totals tell.
   */
  lemma ExcessCachedBreaksTotals(c: Config, action: string, u: Usage, v: Usage)
    requires c.usdIn > 0.0 && u.prompt < u.cached && v.cached < v.prompt
    requires c.maxCalls >= 2 && c.maxUsd > 0.0 && c.maxUsd > Cost(c, u)
    ensures
      var s := Run(c, [Paid(0, action, u), Paid(1, action, v)]);
      Cost(c, Totals(s)) < s.usd
  {
    var turns := [Paid(0, action, u), Paid(1, action, v)];
    var s := Run(c, turns);
    BothPaid(c, action, u, v);
    CountedEntry([], s.journal[0]);
    CountedEntry(s.journal[..1], s.journal[1]);
    assert [] + [s.journal[0]] == s.journal[..1] && s.journal[..1] + [s.journal[1]] == s.journal;
    DollarsPriceTokens(c, turns);
    assert Min(Uncached(s.journal), Excess(s.journal)) as real * c.usdIn > 0.0;
  }

  lemma BothPaid(c: Config, action: string, u: Usage, v: Usage)
    requires c.maxCalls >= 2 && c.maxUsd > 0.0 && c.maxUsd > Cost(c, u)
    ensures
      var s := Run(c, [Paid(0, action, u), Paid(1, action, v)]);
      && |s.journal| == 2 && s.journal[0].PolicyCall? && s.journal[1].PolicyCall?
      && s.journal[0].usage == u && s.journal[1].usage == v
  {
    var first, second := Paid(0, action, u), Paid(1, action, v);
    var turns := [first, second];
    assert turns[..1] == [first] && [first][..0] == [];
    assert Run(c, [first]) == Called(c, START, first);
    assert Run(c, turns) == Called(c, Called(c, START, first), second);
  }
}
