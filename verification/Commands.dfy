/** Command requests: what a state waits for, which requests the wait-until API accepts,
    and when the wait is over. */
module Commands {
  import opened GoTypes

  datatype TriggerType = AllCompleted | AnyCompleted | AnyCombinationCompleted | Unsupported(name: string)

  /** The newer field that overrides the trigger type. */
  datatype WaitingType = WaitAll | WaitAny | WaitAnyCombination | InvalidWaitingType(name: string)

  /** A timer, signal or internal-channel command; only its id matters here. */
  datatype Command = Command(commandId: Option<string>)

  datatype CommandRequest = CommandRequest(
    deciderTriggerType: Option<TriggerType>,
    commandWaitingType: Option<WaitingType>,
    timerCommands: seq<Command>,
    signalCommands: seq<Command>,
    channelCommands: seq<Command>,
    combinations: seq<seq<string>>)
  {
    function CommandCount(): nat {
      |timerCommands| + |signalCommands| + |channelCommands|
    }
  }

  /** cmd.GetCommandId(): the empty string for a nil pointer. */
  function GetCommandId(cmd: Command): string {
    if cmd.commandId.None? then "" else cmd.commandId.value
  }

  /** None stands for the panic on a waiting type that cannot be converted. */
  function GetDeciderTriggerType(req: CommandRequest): Option<TriggerType> {
    if req.commandWaitingType.Some? then
      match req.commandWaitingType.value
      case WaitAll => Some(AllCompleted)
      case WaitAny => Some(AnyCompleted)
      case WaitAnyCombination => Some(AnyCombinationCompleted)
      case InvalidWaitingType(_) => None
    else if req.deciderTriggerType.Some? then Some(req.deciderTriggerType.value)
    else Some(Unsupported(""))
  }

  // ---- The validator ----

  datatype Validation = Accepted | Rejected(reason: Reason) | ValidatorPanic
  datatype Reason = UnsupportedTrigger | MissingIdOrCombination | UnknownId

  predicate AllHaveIds(cmds: seq<Command>) {
    forall cmd | cmd in cmds :: GetCommandId(cmd) != ""
  }

  function IdsOf(cmds: seq<Command>): seq<string> {
    seq(|cmds|, i requires 0 <= i < |cmds| => GetCommandId(cmds[i]))
  }

  function AllIds(req: CommandRequest): seq<string> {
    IdsOf(req.timerCommands) + IdsOf(req.signalCommands) + IdsOf(req.channelCommands)
  }

  predicate NeedsIds(req: CommandRequest) {
    req.CommandCount() > 0 && GetDeciderTriggerType(req) == Some(AnyCombinationCompleted)
  }

  predicate HasIdsAndCombinations(req: CommandRequest) {
    && req.combinations != []
    && AllHaveIds(req.timerCommands) && AllHaveIds(req.signalCommands) && AllHaveIds(req.channelCommands)
  }

  /** What acceptance means: a known trigger type, and for combinations, ids everywhere. */
  predicate Acceptable(req: CommandRequest) {
    req.CommandCount() > 0 ==>
      var t := GetDeciderTriggerType(req);
      && t.Some? && !t.value.Unsupported?
      && (t.value == AnyCombinationCompleted ==>
            && HasIdsAndCombinations(req)
            && forall comb, id | comb in req.combinations && id in comb :: id in AllIds(req))
  }

  /** The request asks for this trigger: in the newer field, or without that one, in the older field. */
  predicate AsksFor(req: CommandRequest, newer: WaitingType, older: TriggerType) {
    if req.commandWaitingType.Some? then req.commandWaitingType == Some(newer)
    else req.deciderTriggerType == Some(older)
  }

  predicate HasNoCommands(req: CommandRequest) {
    req.timerCommands == [] && req.signalCommands == [] && req.channelCommands == []
  }

  predicate IsCommandOf(req: CommandRequest, cmd: Command) {
    cmd in req.timerCommands || cmd in req.signalCommands || cmd in req.channelCommands
  }

  /** There are combinations, every command has an id that is not empty, and every id of a combination is
      that of a command. */
  ghost predicate CombinationsMatch(req: CommandRequest) {
    && req.combinations != []
    && (forall cmd | IsCommandOf(req, cmd) :: cmd.commandId.Some? && cmd.commandId.value != "")
    && forall comb, id | comb in req.combinations && id in comb ::
         exists cmd :: IsCommandOf(req, cmd) && cmd.commandId == Some(id)
  }

  lemma {:induction false} IdsOfMembers(cmds: seq<Command>, id: string)
    ensures id in IdsOf(cmds) <==> exists cmd :: cmd in cmds && GetCommandId(cmd) == id
  {
    if id in IdsOf(cmds) {
      var i :| 0 <= i < |cmds| && IdsOf(cmds)[i] == id;
      assert cmds[i] in cmds;
    }
    if cmd :| cmd in cmds && GetCommandId(cmd) == id {
      var i :| 0 <= i < |cmds| && cmds[i] == cmd;
      assert IdsOf(cmds)[i] == id;
    }
  }

  /** Which requests the validator accepts, in terms of their fields. */
  lemma {:induction false} AcceptableExactly(req: CommandRequest)
    ensures Acceptable(req) <==>
              || HasNoCommands(req)
              || AsksFor(req, WaitAll, AllCompleted)
              || AsksFor(req, WaitAny, AnyCompleted)
              || (AsksFor(req, WaitAnyCombination, AnyCombinationCompleted) && CombinationsMatch(req))
  {
    assert HasNoCommands(req) <==> req.CommandCount() == 0;
    forall id
      ensures id in AllIds(req) <==> exists cmd :: IsCommandOf(req, cmd) && GetCommandId(cmd) == id
    {
      IdsOfMembers(req.timerCommands, id);
      IdsOfMembers(req.signalCommands, id);
      IdsOfMembers(req.channelCommands, id);
    }
    hide AllIds;
    if AsksFor(req, WaitAnyCombination, AnyCombinationCompleted) {
      assert HasIdsAndCombinations(req) <==>
          req.combinations != [] && forall cmd | IsCommandOf(req, cmd) :: GetCommandId(cmd) != "";
    }
  }

  /** One of the three loops that list ids. */
  method AppendCommandIds(ids: seq<string>, cmds: seq<Command>) returns (r: seq<string>)
    ensures r == ids + IdsOf(cmds)
  {
    r := ids;
    for i := 0 to |cmds|
      invariant r == ids + IdsOf(cmds)[..i]
    {
      r := r + [GetCommandId(cmds[i])];
    }
  }

  method ListCommandIds(req: CommandRequest) returns (ids: seq<string>)
    ensures ids == AllIds(req)
  {
    ids := AppendCommandIds([], req.timerCommands);
    ids := AppendCommandIds(ids, req.signalCommands);
    ids := AppendCommandIds(ids, req.channelCommands);
  }

  method AreAllCombinationIdsValid(req: CommandRequest) returns (valid: bool)
    ensures valid <==> forall comb, id | comb in req.combinations && id in comb :: id in AllIds(req)
  {
    var ids := ListCommandIds(req);
    for i := 0 to |req.combinations|
      invariant forall a, id | 0 <= a < i && id in req.combinations[a] :: id in ids
    {
      var comb := req.combinations[i];
      for j := 0 to |comb|
        invariant forall b | 0 <= b < j :: comb[b] in ids
      {
        if comb[j] !in ids {
          assert comb in req.combinations && comb[j] in comb;
          return false;
        }
      }
    }
    return true;
  }

  method HasEmptyId(cmds: seq<Command>) returns (found: bool)
    ensures found <==> !AllHaveIds(cmds)
  {
    for i := 0 to |cmds|
      invariant forall j | 0 <= j < i :: GetCommandId(cmds[j]) != ""
    {
      if GetCommandId(cmds[i]) == "" {
        return true;
      }
    }
    return false;
  }

  /** commandRequest is None when the response, or the request in it, is nil. */
  method CheckCommandRequest(commandRequest: Option<CommandRequest>) returns (v: Validation)
    ensures v.Accepted? <==> (commandRequest.None? || Acceptable(commandRequest.value))
    ensures v.ValidatorPanic? <==> commandRequest.Some? && commandRequest.value.CommandCount() > 0 &&
                                   GetDeciderTriggerType(commandRequest.value).None?
    ensures v == Rejected(UnsupportedTrigger) <==>
              commandRequest.Some? && commandRequest.value.CommandCount() > 0 &&
              GetDeciderTriggerType(commandRequest.value).Some?
                && GetDeciderTriggerType(commandRequest.value).value.Unsupported?
    ensures v == Rejected(MissingIdOrCombination) <==>
              commandRequest.Some? && NeedsIds(commandRequest.value) && !HasIdsAndCombinations(commandRequest.value)
  {
    if commandRequest.None? {
      return Accepted;
    }
    var req := commandRequest.value;
    if req.CommandCount() > 0 {
      var t := GetDeciderTriggerType(req);
      if t.None? {
        return ValidatorPanic;
      }
      if t.value != AnyCompleted && t.value != AllCompleted && t.value != AnyCombinationCompleted {
        return Rejected(UnsupportedTrigger);
      }
      if t.value == AnyCombinationCompleted {
        if |req.combinations| == 0 {
          return Rejected(MissingIdOrCombination);
        }
        var timerMissing := HasEmptyId(req.timerCommands);
        if timerMissing {
          return Rejected(MissingIdOrCombination);
        }
        var signalMissing := HasEmptyId(req.signalCommands);
        if signalMissing {
          return Rejected(MissingIdOrCombination);
        }
        var channelMissing := HasEmptyId(req.channelCommands);
        if channelMissing {
          return Rejected(MissingIdOrCombination);
        }
        var valid := AreAllCombinationIdsValid(req);
        if !valid {
          return Rejected(UnknownId);
        }
      }
    }
    return Accepted;
  }
}
