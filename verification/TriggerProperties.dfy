/** What the wait-until validator and the trigger condition promise together. */
module TriggerProperties {
  import opened GoTypes
  import opened Commands
  import opened DeciderTrigger

  /** The completed indexes name commands of the request: all that the command threads write. */
  ghost predicate Reachable(req: CommandRequest, timers: set<int>, signals: set<int>, channels: set<int>) {
    && InRange(req.timerCommands, timers)
    && InRange(req.signalCommands, signals)
    && InRange(req.channelCommands, channels)
  }

  function Indexes(cmds: seq<Command>): (r: set<int>)
    ensures forall i :: i in r <==> 0 <= i < |cmds|
  {
    if cmds == [] then {} else Indexes(cmds[..|cmds| - 1]) + {|cmds| - 1}
  }

  /** The verdict once every command is completed. */
  ghost function WhenAllCompleted(req: CommandRequest): Verdict {
    TriggerSpec(req, Indexes(req.timerCommands), Indexes(req.signalCommands), Indexes(req.channelCommands))
  }

  // ---- Panic freedom ----

  /** The validator makes the panics of the trigger, and its nil dereferences, unreachable. */
  lemma {:induction false} AcceptedNeverPanics(
    req: CommandRequest, timers: set<int>, signals: set<int>, channels: set<int>)
    requires Acceptable(req) && Reachable(req, timers, signals, channels)
    ensures TriggerSpec(req, timers, signals, channels).Met?
  {
    if GetDeciderTriggerType(req) == Some(AnyCombinationCompleted) && req.CommandCount() > 0 {
      ReadableIds(req.timerCommands, timers);
      ReadableIds(req.signalCommands, signals);
      ReadableIds(req.channelCommands, channels);
    }
  }

  lemma {:induction false} ReadableIds(cmds: seq<Command>, indexes: set<int>)
    requires AllHaveIds(cmds) && InRange(cmds, indexes)
    ensures Readable(cmds, indexes)
  {
    forall i | i in indexes ensures cmds[i].commandId.Some? {
      assert cmds[i] in cmds;
    }
  }

  // ---- The verdict, in terms of the fields of the request ----

  predicate Every(cmds: seq<Command>, indexes: set<int>) {
    forall i | 0 <= i < |cmds| :: i in indexes
  }

  /** The completed commands with this id. */
  ghost function Completions(cmds: seq<Command>, indexes: set<int>, id: string): set<int> {
    set i | i in indexes && 0 <= i < |cmds| && GetCommandId(cmds[i]) == id
  }

  lemma {:induction false} CompletionsLast(cmds: seq<Command>, indexes: set<int>, id: string)
    requires cmds != []
    ensures var last := |cmds| - 1;
            var before := Completions(cmds[..last], indexes, id);
            && last !in before
            && Completions(cmds, indexes, id) ==
                 before + if last in indexes && GetCommandId(cmds[last]) == id then {last} else {}
  {
    var last := |cmds| - 1;
    forall i ensures 0 <= i < last ==> cmds[..last][i] == cmds[i] {
    }
  }

  lemma {:induction false} IdsAtCounts(cmds: seq<Command>, indexes: set<int>, id: string)
    ensures IdsAt(cmds, indexes)[id] == |Completions(cmds, indexes, id)|
    decreases cmds
  {
    if cmds == [] {
    } else {
      CompletionsLast(cmds, indexes, id);
      hide Completions, GetCommandId;
      IdsAtCounts(cmds[..|cmds| - 1], indexes, id);
    }
  }

  /** Without commands there is nothing to wait for. */
  lemma {:induction false} NoCommandsIsMet(
    req: CommandRequest, timers: set<int>, signals: set<int>, channels: set<int>)
    requires HasNoCommands(req)
    ensures TriggerSpec(req, timers, signals, channels) == Met(true)
  {
  }

  /** All: the wait is over if and only if every command of all three lists is completed. */
  lemma {:induction false} AllMeansEvery(
    req: CommandRequest, timers: set<int>, signals: set<int>, channels: set<int>)
    requires Reachable(req, timers, signals, channels)
    requires !HasNoCommands(req) && AsksFor(req, WaitAll, AllCompleted)
    ensures TriggerSpec(req, timers, signals, channels) ==
            Met(Every(req.timerCommands, timers) && Every(req.signalCommands, signals)
                && Every(req.channelCommands, channels))
  {
    EveryIsCount(req.timerCommands, timers);
    EveryIsCount(req.signalCommands, signals);
    EveryIsCount(req.channelCommands, channels);
    hide Every, InRange;
  }

  lemma {:induction false} EveryIsCount(cmds: seq<Command>, indexes: set<int>)
    requires InRange(cmds, indexes)
    ensures Every(cmds, indexes) <==> |indexes| == |cmds|
  {
    EqualCountsMeansAll(cmds, indexes);
    assert Every(cmds, indexes) <==> indexes == Indexes(cmds);
  }

  /** Any: the wait is over if and only if some command is completed. */
  lemma {:induction false} AnyMeansSome(
    req: CommandRequest, timers: set<int>, signals: set<int>, channels: set<int>)
    requires Reachable(req, timers, signals, channels)
    requires !HasNoCommands(req) && AsksFor(req, WaitAny, AnyCompleted)
    ensures TriggerSpec(req, timers, signals, channels) ==
            Met(timers != {} || signals != {} || channels != {})
  {
  }

  /** Any combination: the wait is over if and only if for some combination, each of its ids has at least
      as many completed commands as the combination names it. */
  lemma {:induction false} CombinationMeansEnough(
    req: CommandRequest, timers: set<int>, signals: set<int>, channels: set<int>)
    requires Readable(req.timerCommands, timers) && Readable(req.signalCommands, signals)
    requires Readable(req.channelCommands, channels)
    requires !HasNoCommands(req) && AsksFor(req, WaitAnyCombination, AnyCombinationCompleted)
    ensures TriggerSpec(req, timers, signals, channels) ==
            Met(exists comb | comb in req.combinations :: Enough(req, timers, signals, channels, comb))
  {
    var ids := CompletedIds(req, timers, signals, channels);
    assert TriggerSpec(req, timers, signals, channels) ==
           Met(exists comb | comb in req.combinations :: multiset(comb) <= ids);
    forall comb | comb in req.combinations
      ensures multiset(comb) <= CompletedIds(req, timers, signals, channels) <==>
              Enough(req, timers, signals, channels, comb)
    {
      EnoughIsSubset(req, timers, signals, channels, comb);
    }
  }

  ghost predicate Enough(
    req: CommandRequest, timers: set<int>, signals: set<int>, channels: set<int>, comb: seq<string>)
  {
    forall id | id in comb ::
      multiset(comb)[id] <=
        |Completions(req.timerCommands, timers, id)| + |Completions(req.signalCommands, signals, id)|
        + |Completions(req.channelCommands, channels, id)|
  }

  lemma {:induction false} EnoughIsSubset(
    req: CommandRequest, timers: set<int>, signals: set<int>, channels: set<int>, comb: seq<string>)
    ensures multiset(comb) <= CompletedIds(req, timers, signals, channels) <==>
            Enough(req, timers, signals, channels, comb)
  {
    forall id
      ensures CompletedIds(req, timers, signals, channels)[id] ==
              |Completions(req.timerCommands, timers, id)| + |Completions(req.signalCommands, signals, id)|
              + |Completions(req.channelCommands, channels, id)|
    {
      IdsAtCounts(req.timerCommands, timers, id);
      IdsAtCounts(req.signalCommands, signals, id);
      IdsAtCounts(req.channelCommands, channels, id);
    }
    hide CompletedIds, Completions;
    assert forall id :: id in comb <==> multiset(comb)[id] > 0;
  }

  /** And when the trigger panics. */
  lemma {:induction false} PanicsExactly(
    req: CommandRequest, timers: set<int>, signals: set<int>, channels: set<int>)
    ensures TriggerSpec(req, timers, signals, channels).Panic? <==>
              && !HasNoCommands(req)
              && !AsksFor(req, WaitAll, AllCompleted) && !AsksFor(req, WaitAny, AnyCompleted)
              && (AsksFor(req, WaitAnyCombination, AnyCombinationCompleted) ==>
                    || !Readable(req.timerCommands, timers) || !Readable(req.signalCommands, signals)
                    || !Readable(req.channelCommands, channels))
  {
    assert HasNoCommands(req) <==> req.CommandCount() == 0;
  }

  // ---- Monotonicity ----

  lemma {:induction false} IdsAtMonotone(cmds: seq<Command>, few: set<int>, more: set<int>)
    requires few <= more
    ensures IdsAt(cmds, few) <= IdsAt(cmds, more)
  {
    if cmds == [] {
    } else {
      IdsAtMonotone(cmds[..|cmds| - 1], few, more);
    }
  }

  lemma {:induction false} SubsetCard(few: set<int>, more: set<int>)
    requires few <= more
    ensures |few| <= |more|
    ensures |few| == |more| ==> few == more
  {
    assert more == few + (more - few);
    if |few| == |more| {
      assert |more - few| == 0;
    }
  }

  lemma {:induction false} IndexesCard(cmds: seq<Command>)
    ensures |Indexes(cmds)| == |cmds|
  {
    if cmds == [] {
    } else {
      var last := |cmds| - 1;
      IndexesCard(cmds[..last]);
      assert last !in Indexes(cmds[..last]);
    }
  }

  /** Within range, as many completed as there are commands means: all of them. */
  lemma {:induction false} EqualCountsMeansAll(cmds: seq<Command>, indexes: set<int>)
    requires InRange(cmds, indexes)
    ensures |indexes| <= |cmds|
    ensures |indexes| == |cmds| <==> indexes == Indexes(cmds)
  {
    IndexesCard(cmds);
    SubsetCard(indexes, Indexes(cmds));
  }

  /** Further completions never turn a met condition into an unmet one. */
  lemma {:induction false} TriggerMonotone(req: CommandRequest,
    timers: set<int>, signals: set<int>, channels: set<int>,
    timers': set<int>, signals': set<int>, channels': set<int>)
    requires timers <= timers' && signals <= signals' && channels <= channels'
    requires Reachable(req, timers', signals', channels')
    requires TriggerSpec(req, timers, signals, channels) == Met(true)
    requires TriggerSpec(req, timers', signals', channels').Met?
    ensures TriggerSpec(req, timers', signals', channels') == Met(true)
  {
    if req.CommandCount() > 0 {
      match GetDeciderTriggerType(req)
      case Some(AllCompleted) =>
        AllMonotone(req.timerCommands, timers, timers');
        AllMonotone(req.signalCommands, signals, signals');
        AllMonotone(req.channelCommands, channels, channels');
      case Some(AnyCompleted) =>
        SubsetCard(timers, timers');
        SubsetCard(signals, signals');
        SubsetCard(channels, channels');
      case Some(AnyCombinationCompleted) =>
        IdsAtMonotone(req.timerCommands, timers, timers');
        IdsAtMonotone(req.signalCommands, signals, signals');
        IdsAtMonotone(req.channelCommands, channels, channels');
        var comb :| comb in req.combinations && multiset(comb) <= CompletedIds(req, timers, signals, channels);
        assert multiset(comb) <= CompletedIds(req, timers', signals', channels');
    }
  }

  lemma {:induction false} AllMonotone(cmds: seq<Command>, few: set<int>, more: set<int>)
    requires few <= more && InRange(cmds, more) && |few| == |cmds|
    ensures |more| == |cmds|
  {
    EqualCountsMeansAll(cmds, more);
    SubsetCard(few, more);
  }

  // ---- Progress ----

  /** The combination asks for no id more often than the request has commands with it. */
  predicate Satisfiable(req: CommandRequest, comb: seq<string>) {
    multiset(comb) <= multiset(AllIds(req))
  }

  ghost predicate SomeSatisfiable(req: CommandRequest) {
    exists comb | comb in req.combinations :: Satisfiable(req, comb)
  }

  lemma {:induction false} IdsAtAll(cmds: seq<Command>, indexes: set<int>)
    requires Indexes(cmds) <= indexes
    ensures IdsAt(cmds, indexes) == multiset(IdsOf(cmds))
  {
    if cmds != [] {
      var last := |cmds| - 1;
      IdsAtAll(cmds[..last], indexes);
      assert last in Indexes(cmds);
      assert IdsOf(cmds) == IdsOf(cmds[..last]) + [GetCommandId(cmds[last])];
    } else {
      assert IdsOf(cmds) == [];
    }
  }

  /** With every command completed, an accepted request is met - except that a combination
      request needs a combination that the commands can cover at all. */
  lemma {:induction false} MetWhenAllCompleted(req: CommandRequest)
    requires Acceptable(req)
    ensures WhenAllCompleted(req) ==
            Met(NeedsIds(req) ==> SomeSatisfiable(req))
  {
    if req.CommandCount() > 0 {
      var t, s, c := Indexes(req.timerCommands), Indexes(req.signalCommands), Indexes(req.channelCommands);
      AcceptedNeverPanics(req, t, s, c);
      match GetDeciderTriggerType(req)
      case Some(AnyCombinationCompleted) =>
        AllIdsCompleted(req);
        assert forall comb | comb in req.combinations ::
          Satisfiable(req, comb) <==> multiset(comb) <= CompletedIds(req, t, s, c);
      case _ =>
        IndexesCard(req.timerCommands);
        IndexesCard(req.signalCommands);
        IndexesCard(req.channelCommands);
    }
  }

  lemma {:induction false} AllIdsCompleted(req: CommandRequest)
    ensures CompletedIds(req, Indexes(req.timerCommands), Indexes(req.signalCommands), Indexes(req.channelCommands))
            == multiset(AllIds(req))
  {
    IdsAtAll(req.timerCommands, Indexes(req.timerCommands));
    IdsAtAll(req.signalCommands, Indexes(req.signalCommands));
    IdsAtAll(req.channelCommands, Indexes(req.channelCommands));
  }

  /** An accepted request can be met by some reachable completions if and only if it is no
      combination request without a satisfiable combination: the validator does not check this. */
  lemma {:induction false} CanEverBeMet(req: CommandRequest)
    requires Acceptable(req)
    ensures (exists t, s, c :: Reachable(req, t, s, c) && TriggerSpec(req, t, s, c) == Met(true)) <==>
            (NeedsIds(req) ==> SomeSatisfiable(req))
  {
    var t', s', c' := Indexes(req.timerCommands), Indexes(req.signalCommands), Indexes(req.channelCommands);
    MetWhenAllCompleted(req);
    assert Reachable(req, t', s', c');
    if t, s, c :| Reachable(req, t, s, c) && TriggerSpec(req, t, s, c) == Met(true) {
      assert t <= t' && s <= s' && c <= c';
      TriggerMonotone(req, t, s, c, t', s', c');
    }
  }

  /** A combination without a repeated id is satisfiable in an accepted request. */
  lemma {:induction false} NoRepeatIsSatisfiable(req: CommandRequest, comb: seq<string>)
    requires forall id | id in comb :: id in AllIds(req)
    requires forall i, j | 0 <= i < j < |comb| :: comb[i] != comb[j]
    ensures Satisfiable(req, comb)
    decreases |comb|
  {
    forall id ensures multiset(comb)[id] <= multiset(AllIds(req))[id] {
      if id in comb {
        OnlyOnce(comb, id);
        assert id in multiset(AllIds(req));
      }
    }
  }

  lemma {:induction false} OnlyOnce(comb: seq<string>, id: string)
    requires forall i, j | 0 <= i < j < |comb| :: comb[i] != comb[j]
    ensures multiset(comb)[id] <= 1
  {
    if comb == [] {
    } else {
      OnlyOnce(comb[1..], id);
      assert comb == [comb[0]] + comb[1..];
    }
  }

  /** The no-repeat hypothesis is needed: this request is accepted and can never be met. */
  lemma {:induction false} RepeatedIdIsStuck()
    ensures var timer := Command(Some("t"));
            var req := CommandRequest(Some(AnyCombinationCompleted), None, [timer], [], [], [["t", "t"]]);
            Acceptable(req) && forall t, s, c | Reachable(req, t, s, c) :: TriggerSpec(req, t, s, c) == Met(false)
  {
    var timer := Command(Some("t"));
    var req := CommandRequest(Some(AnyCombinationCompleted), None, [timer], [], [], [["t", "t"]]);
    assert AllIds(req) == ["t"];
    assert multiset(["t", "t"])["t"] == 2 && multiset(["t"])["t"] == 1;
    forall t, s, c | Reachable(req, t, s, c) ensures TriggerSpec(req, t, s, c) == Met(false) {
      AcceptedNeverPanics(req, t, s, c);
      CanEverBeMet(req);
    }
  }
}
