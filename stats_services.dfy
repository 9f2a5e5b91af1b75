/**
 * The statistics service of the exploration editor: the per-state answer report
 * (`export_exploration_stats_to_dict`) and the ranking of states that need improvement
 * (`get_top_improvable_states`). Datastore reads are replaced by inputs: the counters of a
 * state, the default rule's answer log, and the top answers of each rule's log.
 */
module StatsServices {
  import opened Ranking

  const IMPROVE_TYPE_DEFAULT: string := "default"
  const IMPROVE_TYPE_INCOMPLETE: string := "incomplete"
  /** The pseudo-state a reader reaches on finishing an exploration. */
  const END_DEST: string := "END"

  /** One line of an answer log's top answers: an answer and how often it was given. */
  datatype AnswerCount = AnswerCount(answer: string, count: nat)

  // ---------------------------------------------------------------------------
  // Improvable states
  // ---------------------------------------------------------------------------

  /** What the ranking reads about one state. */
  datatype StateCounts = StateCounts(
    stateId: string,
    stateName: string,
    totalEntryCount: nat,
    noAnswerCount: nat,
    defaultAnswerCount: nat,          // total answers logged against the default rule
    defaultDest: string,              // destination of the first handler's default rule
    topDefaultAnswers: seq<AnswerCount>)

  datatype ExplorationCounts = ExplorationCounts(id: string, title: string, states: seq<StateCounts>)

  /** A reason to improve a state, ranked by the count that raised it. */
  datatype Flag = Flag(rank: nat, improveType: string)

  datatype ImprovableState = ImprovableState(
    expId: string,
    expName: string,
    stateId: string,
    stateName: string,
    rank: nat,
    improveType: string,
    topDefaultAnswers: seq<AnswerCount>)

  function FlagRank(f: Flag): int { f.rank }

  function StateRank(x: ImprovableState): int { x.rank }

  /** `count > 0.2 * total`, compared exactly on integers. */
  predicate AboveThreshold(count: nat, total: nat)
  {
    5 * count > total
  }

  /** Readers often fall through to the default rule, and that rule loops back here. */
  predicate DefaultEligible(s: StateCounts)
  {
    AboveThreshold(s.defaultAnswerCount, s.totalEntryCount) && s.defaultDest == s.stateId
  }

  /** Readers often leave the state without answering. */
  predicate IncompleteEligible(s: StateCounts)
  {
    AboveThreshold(s.noAnswerCount, s.totalEntryCount)
  }

  /** The flags a state raises, in the order they are appended: "default" first. */
  function EligibleFlags(s: StateCounts): seq<Flag>
  {
    (if DefaultEligible(s) then [Flag(s.defaultAnswerCount, IMPROVE_TYPE_DEFAULT)] else [])
    + (if IncompleteEligible(s) then [Flag(s.noAnswerCount, IMPROVE_TYPE_INCOMPLETE)] else [])
  }

  /** The head of the flags sorted by rank, largest first; rank 0 and no type when none. */
  function BestFlag(flags: seq<Flag>): Flag
  {
    if flags == [] then Flag(0, "") else SortDesc(flags, FlagRank)[0]
  }

  lemma SortDescOfTwo<T>(a: T, b: T, key: T -> int)
    ensures SortDesc([a], key) == [a]
    ensures SortDesc([a, b], key) == if key(a) >= key(b) then [a, b] else [b, a]
  {
  }

  function Max(a: int, b: int): int { if a >= b then a else b }

  /** The record the ranking builds for one entered state. */
  function RankState(e: ExplorationCounts, s: StateCounts): (r: ImprovableState)
    ensures r.rank != 0 <==> DefaultEligible(s) || IncompleteEligible(s)
    ensures r.rank == Max(if DefaultEligible(s) then s.defaultAnswerCount else 0,
                          if IncompleteEligible(s) then s.noAnswerCount else 0)
    ensures r.improveType == IMPROVE_TYPE_DEFAULT <==>
              DefaultEligible(s) && (IncompleteEligible(s) ==> s.defaultAnswerCount >= s.noAnswerCount)
    ensures r.improveType == IMPROVE_TYPE_INCOMPLETE <==>
              IncompleteEligible(s) && (DefaultEligible(s) ==> s.noAnswerCount > s.defaultAnswerCount)
    ensures r.improveType == "" <==> r.rank == 0
    ensures r.expId == e.id && r.expName == e.title && r.stateId == s.stateId
    ensures r.stateName == s.stateName && r.topDefaultAnswers == s.topDefaultAnswers
  {
    SortDescOfTwo(Flag(s.defaultAnswerCount, IMPROVE_TYPE_DEFAULT),
                  Flag(s.noAnswerCount, IMPROVE_TYPE_INCOMPLETE), FlagRank);
    var best := BestFlag(EligibleFlags(s));
    ImprovableState(e.id, e.title, s.stateId, s.stateName, best.rank, best.improveType, s.topDefaultAnswers)
  }

  /** The records built for the entered states among `states`, in order. */
  function RankedIn(e: ExplorationCounts, states: seq<StateCounts>): seq<ImprovableState>
  {
    if states == [] then []
    else
      var s := states[|states| - 1];
      RankedIn(e, states[..|states| - 1]) + (if s.totalEntryCount == 0 then [] else [RankState(e, s)])
  }

  /** The records built for every entered state of every exploration, in order. */
  function Ranked(explorations: seq<ExplorationCounts>): seq<ImprovableState>
  {
    if explorations == [] then []
    else
      var e := explorations[|explorations| - 1];
      Ranked(explorations[..|explorations| - 1]) + RankedIn(e, e.states)
  }

  /** The records with a nonzero rank, in order. */
  function ProblemStates(ranked: seq<ImprovableState>): seq<ImprovableState>
  {
    if ranked == [] then []
    else
      var x := ranked[|ranked| - 1];
      ProblemStates(ranked[..|ranked| - 1]) + (if x.rank != 0 then [x] else [])
  }

  /** Python's `s[:n]`, a negative `n` counting from the end. */
  function SliceTo<T>(s: seq<T>, n: int): (r: seq<T>)
    ensures n >= 0 ==> |r| == if n <= |s| then n else |s|
    ensures n < 0 ==> |r| == if |s| + n >= 0 then |s| + n else 0
    ensures r <= s
  {
    if n >= 0 then (if n <= |s| then s[..n] else s)
    else (if |s| + n >= 0 then s[..|s| + n] else [])
  }

  /** What `get_top_improvable_states(explorations, n)` returns. */
  function TopImprovableStates(explorations: seq<ExplorationCounts>, n: int): seq<ImprovableState>
  {
    SliceTo(SortDesc(ProblemStates(Ranked(explorations)), StateRank), n)
  }

  /** `get_top_improvable_states`: the loops that build the records, then filter, sort and cut. */
  method GetTopImprovableStates(explorations: seq<ExplorationCounts>, n: int)
    returns (top: seq<ImprovableState>)
    ensures top == TopImprovableStates(explorations, n)
    ensures n >= 0 ==> |top| <= n
    ensures forall x :: x in top ==> x.rank != 0 && x in Ranked(explorations)
    ensures SortedDesc(top, StateRank)
  {
    var ranked: seq<ImprovableState> := [];
    for i := 0 to |explorations|
      invariant ranked == Ranked(explorations[..i])
    {
      var exploration := explorations[i];
      for j := 0 to |exploration.states|
        invariant ranked == Ranked(explorations[..i]) + RankedIn(exploration, exploration.states[..j])
      {
        var s := exploration.states[j];
        if s.totalEntryCount != 0 {
          var eligibleFlags: seq<Flag> := [];
          if DefaultEligible(s) {
            eligibleFlags := eligibleFlags + [Flag(s.defaultAnswerCount, IMPROVE_TYPE_DEFAULT)];
          }
          if IncompleteEligible(s) {
            eligibleFlags := eligibleFlags + [Flag(s.noAnswerCount, IMPROVE_TYPE_INCOMPLETE)];
          }
          var stateRank, improveType := 0, "";
          if eligibleFlags != [] {
            eligibleFlags := SortDesc(eligibleFlags, FlagRank);
            stateRank, improveType := eligibleFlags[0].rank, eligibleFlags[0].improveType;
          }
          ranked := ranked + [ImprovableState(exploration.id, exploration.title, s.stateId, s.stateName,
                                              stateRank, improveType, s.topDefaultAnswers)];
        }
        assert exploration.states[..j + 1][..j] == exploration.states[..j];
      }
      assert exploration.states[..|exploration.states|] == exploration.states;
      assert explorations[..i + 1][..i] == explorations[..i];
    }
    assert explorations[..|explorations|] == explorations;
    var problemStates := SortDesc(ProblemStates(ranked), StateRank);
    top := SliceTo(problemStates, n);
    TopIsFlagged(explorations, n);
    TopIsHighestRanked(explorations, n);
  }

  // --- properties of the ranking ---

  /** Entered states only: every record of `RankedIn` was built for an entered state. */
  lemma {:induction false} RankedInFromEnteredStates(e: ExplorationCounts, states: seq<StateCounts>, x: ImprovableState)
    requires x in RankedIn(e, states)
    ensures exists j :: 0 <= j < |states| && states[j].totalEntryCount != 0 && x == RankState(e, states[j])
  {
    var init := states[..|states| - 1];
    if x in RankedIn(e, init) {
      RankedInFromEnteredStates(e, init, x);
      var j :| 0 <= j < |init| && init[j].totalEntryCount != 0 && x == RankState(e, init[j]);
      assert states[j] == init[j];
    } else {
      assert states[|states| - 1].totalEntryCount != 0 && x == RankState(e, states[|states| - 1]);
    }
  }

  /** Every entered state of `states` yields its record. */
  lemma {:induction false} EnteredStatesInRankedIn(e: ExplorationCounts, states: seq<StateCounts>, j: nat)
    requires j < |states| && states[j].totalEntryCount != 0
    ensures RankState(e, states[j]) in RankedIn(e, states)
  {
    var init := states[..|states| - 1];
    if j < |init| {
      EnteredStatesInRankedIn(e, init, j);
      assert states[j] == init[j];
    }
  }

  /** States never entered are skipped: every record was built for an entered state. */
  lemma {:induction false} RankedFromEnteredStates(explorations: seq<ExplorationCounts>, x: ImprovableState)
    requires x in Ranked(explorations)
    ensures exists i, j :: 0 <= i < |explorations| && 0 <= j < |explorations[i].states|
                           && explorations[i].states[j].totalEntryCount != 0
                           && x == RankState(explorations[i], explorations[i].states[j])
  {
    var init := explorations[..|explorations| - 1];
    var last := |explorations| - 1;
    if x in Ranked(init) {
      RankedFromEnteredStates(init, x);
      var i, j :| 0 <= i < |init| && 0 <= j < |init[i].states| && init[i].states[j].totalEntryCount != 0
                  && x == RankState(init[i], init[i].states[j]);
      assert explorations[i] == init[i];
    } else {
      RankedInFromEnteredStates(explorations[last], explorations[last].states, x);
    }
  }

  /** Every entered state of every exploration yields its record. */
  lemma {:induction false} EnteredStatesRanked(explorations: seq<ExplorationCounts>, i: nat, j: nat)
    requires i < |explorations| && j < |explorations[i].states|
    requires explorations[i].states[j].totalEntryCount != 0
    ensures RankState(explorations[i], explorations[i].states[j]) in Ranked(explorations)
  {
    var init := explorations[..|explorations| - 1];
    if i < |init| {
      EnteredStatesRanked(init, i, j);
      assert explorations[i] == init[i];
    } else {
      EnteredStatesInRankedIn(explorations[i], explorations[i].states, j);
    }
  }

  /** The filter keeps exactly the records of nonzero rank, in order. */
  lemma {:induction false} ProblemStatesFilter(ranked: seq<ImprovableState>)
    ensures forall x :: x in ProblemStates(ranked) <==> x in ranked && x.rank != 0
    ensures forall k :: k != 0 ==> KeyFilter(ProblemStates(ranked), StateRank, k) == KeyFilter(ranked, StateRank, k)
  {
    if ranked != [] {
      var init := ranked[..|ranked| - 1];
      var x := ranked[|ranked| - 1];
      ProblemStatesFilter(init);
      assert ranked == init + [x];
      forall k | k != 0
        ensures KeyFilter(ProblemStates(ranked), StateRank, k) == KeyFilter(ranked, StateRank, k)
      {
        KeyFilterConcat(ProblemStates(init), if x.rank != 0 then [x] else [], StateRank, k);
        KeyFilterConcat(init, [x], StateRank, k);
        KeyFilterCons(x, [], StateRank, k);
        assert [x] + [] == [x];
      }
    }
  }

  /** The result holds at most `n` records, each with a nonzero rank and built by the loops. */
  lemma TopIsFlagged(explorations: seq<ExplorationCounts>, n: int)
    ensures n >= 0 ==> |TopImprovableStates(explorations, n)| <= n
    ensures forall x :: x in TopImprovableStates(explorations, n) ==> x.rank != 0 && x in Ranked(explorations)
  {
    var problems := ProblemStates(Ranked(explorations));
    var sorted := SortDesc(problems, StateRank);
    var top := TopImprovableStates(explorations, n);
    SortDescIsStable(problems, StateRank);
    ProblemStatesFilter(Ranked(explorations));
    forall x | x in top ensures x.rank != 0 && x in Ranked(explorations) {
      assert top == sorted[..|top|];
      assert x in multiset(sorted);
    }
  }

  /** Ranks never increase along the result, and the cut drops no record that outranks a kept one. */
  lemma TopIsHighestRanked(explorations: seq<ExplorationCounts>, n: int)
    ensures SortedDesc(TopImprovableStates(explorations, n), StateRank)
    ensures forall x, y ::
              (x in ProblemStates(Ranked(explorations)) && x !in TopImprovableStates(explorations, n)
               && y in TopImprovableStates(explorations, n)) ==> y.rank >= x.rank
  {
    var problems := ProblemStates(Ranked(explorations));
    var sorted := SortDesc(problems, StateRank);
    var top := TopImprovableStates(explorations, n);
    SortDescIsStable(problems, StateRank);
    assert top == sorted[..|top|];
    SortedCut(sorted, |top|, StateRank);
    forall x | x in problems && x !in top ensures x in sorted[|top|..] {
      assert x in multiset(sorted);
      assert sorted == top + sorted[|top|..];
    }
  }

  /**
   * Records of equal rank keep the order in which the explorations and their states were
   * visited: for every rank, the records of that rank in the result are a prefix of those
   * built by the loops.
   */
  lemma TopKeepsVisitOrderOnTies(explorations: seq<ExplorationCounts>, n: int, k: int)
    ensures KeyFilter(TopImprovableStates(explorations, n), StateRank, k) <= KeyFilter(Ranked(explorations), StateRank, k)
  {
    var problems := ProblemStates(Ranked(explorations));
    var sorted := SortDesc(problems, StateRank);
    var top := TopImprovableStates(explorations, n);
    SortDescIsStable(problems, StateRank);
    ProblemStatesFilter(Ranked(explorations));
    assert sorted == top + sorted[|top|..];
    KeyFilterConcat(top, sorted[|top|..], StateRank, k);
    if k == 0 {
      TopIsFlagged(explorations, n);
      KeyFilterNone(top, StateRank, 0);
    } else {
      assert KeyFilter(sorted, StateRank, k) == KeyFilter(Ranked(explorations), StateRank, k);
    }
  }

  /** Every record returned was built for a state that readers entered. */
  lemma TopStatesWereEntered(explorations: seq<ExplorationCounts>, n: int, x: ImprovableState)
    requires x in TopImprovableStates(explorations, n)
    ensures exists i, j :: 0 <= i < |explorations| && 0 <= j < |explorations[i].states|
                           && explorations[i].states[j].totalEntryCount != 0
                           && x == RankState(explorations[i], explorations[i].states[j])
  {
    TopIsFlagged(explorations, n);
    RankedFromEnteredStates(explorations, x);
  }

  // ---------------------------------------------------------------------------
  // The per-state answer report
  // ---------------------------------------------------------------------------

  /** A state counter: first entries and all entries. */
  datatype Counter = Counter(firstEntryCount: nat, totalEntryCount: nat)

  /** What the report reads of a state: its name and, handler by handler, `str(rule)` of its rules. */
  datatype StateView = StateView(name: string, handlerRules: seq<seq<string>>)

  /** A state's entry in the `answers` dict: its name and its rules' top answers by rule. */
  datatype StateAnswers = StateAnswers(name: string, rules: map<string, seq<AnswerCount>>)

  /** A state's entry in the `state_counts` dict. */
  datatype NamedCount = NamedCount(name: string, count: nat)

  /** A rule's report: its top answers and the chart "This rule" against "Other answers". */
  datatype RuleStats = RuleStats(answers: seq<AnswerCount>, thisRule: int, otherAnswers: int)

  /** A state's report; `noAnswer` and `answerGiven` form the "No answer" chart. */
  datatype StateStats = StateStats(
    name: string,
    count: int,
    ruleStats: map<string, RuleStats>,
    noAnswer: int,
    answerGiven: int)

  datatype ExplorationStats = ExplorationStats(
    numVisits: nat,
    numCompletions: nat,
    stateStats: map<string, StateStats>)

  /** The sum of the counts of an answer list. */
  function AnswerTotal(answers: seq<AnswerCount>): nat
  {
    if answers == [] then 0
    else AnswerTotal(answers[..|answers| - 1]) + answers[|answers| - 1].count
  }

  /** The strings of a list, as a set. */
  function Elements(s: seq<string>): set<string>
  {
    if s == [] then {} else Elements(s[..|s| - 1]) + {s[|s| - 1]}
  }

  /** The rule keys of all handlers of a state. */
  function RuleKeys(handlerRules: seq<seq<string>>): set<string>
  {
    if handlerRules == [] then {}
    else RuleKeys(handlerRules[..|handlerRules| - 1]) + Elements(handlerRules[|handlerRules| - 1])
  }

  /** The sum of "This rule" over the rules of a report, in no particular order. */
  ghost function ThisRuleTotal(ruleStats: map<string, RuleStats>): int
    decreases ruleStats.Keys
  {
    if ruleStats.Keys == {} then 0
    else
      var r :| r in ruleStats;
      ruleStats[r].thisRule + ThisRuleTotal(ruleStats - {r})
  }

  /** Any rule may be taken out first: the total does not depend on the order of the rules. */
  lemma {:induction false} ThisRuleTotalRemove(ruleStats: map<string, RuleStats>, r: string)
    requires r in ruleStats
    ensures ThisRuleTotal(ruleStats) == ruleStats[r].thisRule + ThisRuleTotal(ruleStats - {r})
    decreases ruleStats.Keys
  {
    var q :| q in ruleStats && ThisRuleTotal(ruleStats) == ruleStats[q].thisRule + ThisRuleTotal(ruleStats - {q});
    if q != r {
      ThisRuleTotalRemove(ruleStats - {q}, r);
      ThisRuleTotalRemove(ruleStats - {r}, q);
      assert ruleStats - {q} - {r} == ruleStats - {r} - {q};
    }
  }

  lemma ThisRuleTotalAdd(ruleStats: map<string, RuleStats>, r: string, s: RuleStats)
    requires r !in ruleStats
    ensures ThisRuleTotal(ruleStats[r := s]) == ThisRuleTotal(ruleStats) + s.thisRule
  {
    ThisRuleTotalRemove(ruleStats[r := s], r);
    assert ruleStats[r := s] - {r} == ruleStats;
  }

  /**
   * `ss` is the report of state `id`, entered `count` times, whose rule logs hold `topAnswers`:
   * a chart per rule whose two bars add up to `count`, and a "No answer" chart whose two bars
   * add up to `count` with "Answer given" the sum of the rules' counts.
   */
  ghost predicate ChartsState(ss: StateStats, state: StateView, count: nat,
                              id: string, topAnswers: (string, string) -> seq<AnswerCount>)
  {
    && ss.name == state.name
    && ss.count == count
    && ss.ruleStats.Keys == RuleKeys(state.handlerRules)
    && (forall r :: r in ss.ruleStats ==>
          && ss.ruleStats[r].answers == topAnswers(id, r)
          && ss.ruleStats[r].thisRule == AnswerTotal(topAnswers(id, r))
          && ss.ruleStats[r].thisRule + ss.ruleStats[r].otherAnswers == count)
    && ss.answerGiven == ThisRuleTotal(ss.ruleStats)
    && ss.noAnswer + ss.answerGiven == count
  }

  /**
   * The first loop of `export_exploration_stats_to_dict`: for every state, its name and, for
   * every rule key of its handlers, the top answers of that rule's log. `stateById(id)` is the
   * state `id` and `topAnswers(id, r)` the top answers of the log of rule `r` in state `id`.
   */
  method CollectAnswers(
    stateIds: seq<string>,
    stateById: string -> StateView,
    topAnswers: (string, string) -> seq<AnswerCount>)
    returns (answers: map<string, StateAnswers>)
    ensures answers.Keys == Elements(stateIds)
    ensures forall id :: id in answers ==>
              && answers[id].name == stateById(id).name
              && answers[id].rules.Keys == RuleKeys(stateById(id).handlerRules)
              && forall r :: r in answers[id].rules ==> answers[id].rules[r] == topAnswers(id, r)
  {
    answers := map[];
    for i := 0 to |stateIds|
      invariant answers.Keys == Elements(stateIds[..i])
      invariant forall id :: id in answers ==>
                  && answers[id].name == stateById(id).name
                  && answers[id].rules.Keys == RuleKeys(stateById(id).handlerRules)
                  && forall r :: r in answers[id].rules ==> answers[id].rules[r] == topAnswers(id, r)
    {
      var id := stateIds[i];
      var state := stateById(id);
      var rules: map<string, seq<AnswerCount>> := map[];
      for h := 0 to |state.handlerRules|
        invariant rules.Keys == RuleKeys(state.handlerRules[..h])
        invariant forall r :: r in rules ==> rules[r] == topAnswers(id, r)
      {
        var handler := state.handlerRules[h];
        for j := 0 to |handler|
          invariant rules.Keys == RuleKeys(state.handlerRules[..h]) + Elements(handler[..j])
          invariant forall r :: r in rules ==> rules[r] == topAnswers(id, r)
        {
          rules := rules[handler[j] := topAnswers(id, handler[j])];
          assert handler[..j + 1][..j] == handler[..j];
        }
        assert handler[..|handler|] == handler;
        assert state.handlerRules[..h + 1][..h] == state.handlerRules[..h];
      }
      assert state.handlerRules[..|state.handlerRules|] == state.handlerRules;
      answers := answers[id := StateAnswers(state.name, rules)];
      assert stateIds[..i + 1][..i] == stateIds[..i];
    }
    assert stateIds[..|stateIds|] == stateIds;
  }

  /** The second loop of `export_exploration_stats_to_dict`: every state's name and entry count. */
  method CountEntries(stateIds: seq<string>, stateById: string -> StateView, counter: string -> Counter)
    returns (stateCounts: map<string, NamedCount>)
    ensures stateCounts.Keys == Elements(stateIds)
    ensures forall id :: id in stateCounts ==>
              stateCounts[id] == NamedCount(stateById(id).name, counter(id).totalEntryCount)
  {
    stateCounts := map[];
    for i := 0 to |stateIds|
      invariant stateCounts.Keys == Elements(stateIds[..i])
      invariant forall id :: id in stateCounts ==>
                  stateCounts[id] == NamedCount(stateById(id).name, counter(id).totalEntryCount)
    {
      var id := stateIds[i];
      stateCounts := stateCounts[id := NamedCount(stateById(id).name, counter(id).totalEntryCount)];
      assert stateIds[..i + 1][..i] == stateIds[..i];
    }
    assert stateIds[..|stateIds|] == stateIds;
  }

  /**
   * The body of the third loop for one state: sum each rule's answer counts, in whatever
   * order the rules come, into that rule's chart and into the state's "Answer given".
   */
  method ChartRules(rules: map<string, seq<AnswerCount>>, stateCount: nat)
    returns (ruleStats: map<string, RuleStats>, allRuleCount: int)
    ensures ruleStats.Keys == rules.Keys
    ensures forall r :: r in ruleStats ==>
              && ruleStats[r].answers == rules[r]
              && ruleStats[r].thisRule == AnswerTotal(rules[r])
              && ruleStats[r].thisRule + ruleStats[r].otherAnswers == stateCount
    ensures allRuleCount == ThisRuleTotal(ruleStats)
  {
    allRuleCount := 0;
    ruleStats := map[];
    var rulesPending := rules.Keys;
    while rulesPending != {}
      invariant rulesPending <= rules.Keys
      invariant ruleStats.Keys == rules.Keys - rulesPending
      invariant forall r :: r in ruleStats ==>
                  && ruleStats[r].answers == rules[r]
                  && ruleStats[r].thisRule == AnswerTotal(rules[r])
                  && ruleStats[r].thisRule + ruleStats[r].otherAnswers == stateCount
      invariant allRuleCount == ThisRuleTotal(ruleStats)
      decreases rulesPending
    {
      var r :| r in rulesPending;
      var ruleAnswers := rules[r];
      var ruleCount := 0;
      ghost var countBefore := allRuleCount;
      for k := 0 to |ruleAnswers|
        invariant ruleCount == AnswerTotal(ruleAnswers[..k])
        invariant allRuleCount == countBefore + ruleCount
      {
        ruleCount := ruleCount + ruleAnswers[k].count;
        allRuleCount := allRuleCount + ruleAnswers[k].count;
        assert ruleAnswers[..k + 1][..k] == ruleAnswers[..k];
      }
      assert ruleAnswers[..|ruleAnswers|] == ruleAnswers;
      var chart := RuleStats(ruleAnswers, ruleCount, stateCount - ruleCount);
      ThisRuleTotalAdd(ruleStats, r, chart);
      ruleStats := ruleStats[r := chart];
      rulesPending := rulesPending - {r};
    }
  }

  /**
   * `export_exploration_stats_to_dict`. `counter(id)` is the state counter of state `id`,
   * `stateById(id)` the state, and `topAnswers(id, r)` the top answers of the log of rule
   * `r` in state `id`.
   */
  method ExportExplorationStats(
    initStateId: string,
    stateIds: seq<string>,
    stateById: string -> StateView,
    counter: string -> Counter,
    topAnswers: (string, string) -> seq<AnswerCount>)
    returns (stats: ExplorationStats)
    ensures stats.numVisits == counter(initStateId).firstEntryCount
    ensures stats.numCompletions == counter(END_DEST).firstEntryCount
    ensures stats.stateStats.Keys == Elements(stateIds)
    ensures forall id :: id in stats.stateStats ==>
              ChartsState(stats.stateStats[id], stateById(id), counter(id).totalEntryCount, id, topAnswers)
  {
    var numVisits := counter(initStateId).firstEntryCount;
    var numCompletions := counter(END_DEST).firstEntryCount;
    var answers := CollectAnswers(stateIds, stateById, topAnswers);
    var stateCounts := CountEntries(stateIds, stateById, counter);

    var stateStats: map<string, StateStats> := map[];
    var pending := answers.Keys;
    while pending != {}
      invariant pending <= answers.Keys
      invariant stateStats.Keys == answers.Keys - pending
      invariant forall id :: id in stateStats ==>
                  ChartsState(stateStats[id], stateById(id), counter(id).totalEntryCount, id, topAnswers)
      decreases pending
    {
      var id :| id in pending;
      var stateCount := stateCounts[id].count;
      var ruleStats, allRuleCount := ChartRules(answers[id].rules, stateCount);
      var chart := StateStats(answers[id].name, stateCount, ruleStats, stateCount - allRuleCount, allRuleCount);
      assert ChartsState(chart, stateById(id), counter(id).totalEntryCount, id, topAnswers);
      stateStats := stateStats[id := chart];
      pending := pending - {id};
    }
    stats := ExplorationStats(numVisits, numCompletions, stateStats);
  }
}
