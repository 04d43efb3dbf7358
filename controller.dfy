/**
 * The controller's command loop (main.go): readSingleCmd takes one command
 * off the dispatch queue, hands "controller" commands to internal
 * processing, routes the others by role or by gid/nid, logs them, queues
 * them for each target agent with a QUEUED placeholder, and signals that the
 * command was queued.
 *
 * The routing decision is the pure function Route; the bookkeeping is the
 * imperative ReadSingleCmd, proved against the functions Dispatched and
 * Placed. getActiveAgents is an unimplemented TODO in the source, so the
 * active agents are an input, and so are rand.Intn's pick, the clock, the
 * store's error, the JSON codec, redigo's formatting of a command and the
 * internal handlers' outcomes.
 */
module Controller {
  import opened Wrappers
  import opened Text
  import opened Core
  import opened Broker
  import opened RedisData
  import opened AgentData

  /** Commands with this cmd are for the controller itself. */
  const CMD_INTERNAL: string := "controller"

  /** The list LogCommand pushes every routed command onto. */
  const JOB_LOG: string := "joblog"

  const NOT_ALIVE_MESSAGE: string := "Agent is not alive!"

  /** In(l, x): an index loop with an early return. */
  method In(l: seq<string>, x: string) returns (b: bool)
    ensures b <==> x in l
  {
    for i := 0 to |l|
      invariant x !in l[..i]
    {
      if l[i] == x {
        return true;
      }
    }
    assert l[..|l|] == l;
    return false;
  }

  /** Go's %v of a []string: the elements between brackets, separated by spaces. */
  function GoStrings(l: seq<string>): string {
    "[" + Join(l, ' ') + "]"
  }

  function NoRoleMessage(roles: seq<string>): string {
    "No agents with role '" + GoStrings(roles) + "' alive!"
  }

  /** The ERROR record readSingleCmd sends for a command it cannot route. */
  function ErrorResult(command: Command, data: string, now: int): (r: CommandResult)
    ensures r.id == command.id && r.gid == command.gid && r.nid == command.nid
    ensures r.state == STATE_ERROR && r.data == data
  {
    CommandResult(command.id, command.nid, command.gid, STATE_ERROR, data, 0, now)
  }

  /** What readSingleCmd decides for a command: internal processing, or the
      error results to send and the agents to queue the command for. */
  datatype Routing = Internal | Routed(errors: seq<CommandResult>, targets: seq<AgentID>)

  /** The routing decision. `active` is what getActiveAgents gives for the
      command's gid and roles, `connected` whether the agent (gid, nid) is in
      the agent table, and `pick` what rand.Intn returns (taken modulo the
      number of active agents). */
  function Route(command: Command, active: seq<AgentID>, connected: bool, pick: nat, now: int): Routing {
    if command.cmd == CMD_INTERNAL then Internal
    else if |command.roles| > 0 then
      if |active| == 0 then Routed([ErrorResult(command, NoRoleMessage(command.roles), now)], [])
      else if command.fanout then Routed([], active)
      else Routed([], [active[pick % |active|]])
    else if !connected then Routed([ErrorResult(command, NOT_ALIVE_MESSAGE, now)], [])
    else Routed([], [AgentOf(command.gid, command.nid)])
  }

  /** The routing cases: internal commands are not routed; a role command goes
      to every active agent (fanout) or to one of them, or gets one ERROR when
      none is active; a gid/nid command goes to that agent when it is
      connected and gets one ERROR otherwise. A command is never both
      answered with an error and queued. */
  lemma RouteCases(command: Command, active: seq<AgentID>, connected: bool, pick: nat, now: int)
    ensures var r := Route(command, active, connected, pick, now);
            (r.Internal? <==> command.cmd == CMD_INTERNAL) &&
            (r.Routed? ==> (r.errors == [] <==> r.targets != []) && |r.errors| <= 1) &&
            (r.Routed? && |command.roles| > 0 && |active| == 0 ==>
               r.errors == [ErrorResult(command, NoRoleMessage(command.roles), now)]) &&
            (r.Routed? && |command.roles| > 0 && command.fanout ==> active != [] ==> r.targets == active) &&
            (r.Routed? && |command.roles| > 0 && !command.fanout && active != [] ==>
               |r.targets| == 1 && r.targets[0] in active) &&
            (r.Routed? && |command.roles| == 0 && !connected ==>
               r.errors == [ErrorResult(command, NOT_ALIVE_MESSAGE, now)] && r.targets == []) &&
            (r.Routed? && |command.roles| == 0 && connected ==>
               r.targets == [AgentOf(command.gid, command.nid)])
  {
  }

  /** An element of readSingleCmd's ids list as the source builds it: the role
      branches push core.AgentID values, the gid/nid branch pushes
      []int{gid, nid}. */
  datatype Pushed = PushedAgent(agent: AgentID) | PushedPair(pair: seq<int>)

  /** The ids list as written. */
  function PushedAsWritten(command: Command, active: seq<AgentID>, connected: bool, pick: nat): seq<Pushed> {
    if |command.roles| > 0 then
      if |active| == 0 then []
      else if command.fanout then seq(|active|, i requires 0 <= i < |active| => PushedAgent(active[i]))
      else [PushedAgent(active[pick % |active|])]
    else if !connected then []
    else [PushedPair([command.gid, command.nid])]
  }

  /** The dispatch loop's `e.Value.([]int)` and the AgentID built from it; the
      type assertion panics on anything that is not an []int. */
  function AssertedAgentAsWritten(p: Pushed): Result<AgentID, string> {
    match p
    case PushedAgent(_) => Failure("interface conversion: interface {} is core.AgentID, not []int")
    case PushedPair(pair) =>
      if |pair| < 2 then Failure("index out of range") else Success(AgentOf(pair[0], pair[1]))
  }

  /** As written, a role-routed command with an active agent crashes the
      controller at the first dispatch, whereas the gid/nid route dispatches the
      agent Route names. */
  lemma RoleDispatchPanics(command: Command, active: seq<AgentID>, connected: bool, pick: nat, now: int)
    requires command.cmd != CMD_INTERNAL && |command.roles| > 0 && |active| > 0
    ensures var ps := PushedAsWritten(command, active, connected, pick);
            |ps| > 0 && AssertedAgentAsWritten(ps[0]).Failure? &&
            |Route(command, active, connected, pick, now).targets| > 0
  {
  }

  lemma PairDispatchAgrees(command: Command, active: seq<AgentID>, connected: bool, pick: nat, now: int)
    requires command.cmd != CMD_INTERNAL && |command.roles| == 0
    ensures var ps := PushedAsWritten(command, active, connected, pick);
            var targets := Route(command, active, connected, pick, now).targets;
            |ps| == |targets| &&
            forall i :: 0 <= i < |ps| ==> AssertedAgentAsWritten(ps[i]) == Success(targets[i])
  {
  }

  /** What a handler of the internals map did: returned a value whose
      json.Marshal gave the text or the marshal error's text, or returned an
      error with its text. */
  datatype HandlerOutcome = Returned(serialized: Result<string, string>) | Raised(err: string)

  /** The record processInternalCommand sends, as written: on a marshal
      error the error text is overwritten by the empty serialization and the
      state is SUCCESS. */
  function InternalResultAsWritten(command: Command, handlers: map<string, Command -> HandlerOutcome>, now: int)
    : CommandResult
  {
    var blank := CommandResult(command.id, command.nid, command.gid, STATE_ERROR, "", 0, now);
    if command.argsName !in handlers then blank.(state := STATE_UNKNOWN_CMD)
    else
      match handlers[command.argsName](command)
      case Raised(e) => blank.(data := e)
      case Returned(Failure(_)) => blank.(state := STATE_SUCCESS, data := "", level := LEVEL_JSON)
      case Returned(Success(text)) => blank.(state := STATE_SUCCESS, data := text, level := LEVEL_JSON)
  }

  /** A handler whose value cannot be marshalled is reported as a success with
      no data. */
  lemma MarshalErrorReportedAsSuccess(command: Command, handlers: map<string, Command -> HandlerOutcome>,
                                      now: int, e: string)
    requires command.argsName in handlers && handlers[command.argsName](command) == Returned(Failure(e))
    ensures InternalResultAsWritten(command, handlers, now).state == STATE_SUCCESS
    ensures InternalResultAsWritten(command, handlers, now).data == ""
  {
  }

  /** The record processInternalCommand evidently means to send: a marshal
      error is an ERROR carrying the error's text, like a handler's error. */
  function InternalResult(command: Command, handlers: map<string, Command -> HandlerOutcome>, now: int)
    : CommandResult
  {
    var blank := CommandResult(command.id, command.nid, command.gid, STATE_ERROR, "", 0, now);
    if command.argsName !in handlers then blank.(state := STATE_UNKNOWN_CMD)
    else
      match handlers[command.argsName](command)
      case Raised(e) => blank.(data := e)
      case Returned(Failure(e)) => blank.(data := e)
      case Returned(Success(text)) => blank.(state := STATE_SUCCESS, data := text, level := LEVEL_JSON)
  }

  /** The result echoes the command's address; an unknown name is UNKNOWN_CMD,
      any error is ERROR with its text, and SUCCESS (level 20) is reported
      exactly when the handler's value was serialized, with that text. */
  lemma InternalResultCases(command: Command, handlers: map<string, Command -> HandlerOutcome>, now: int)
    ensures var r := InternalResult(command, handlers, now);
            r.id == command.id && r.gid == command.gid && r.nid == command.nid && r.startTime == now &&
            (command.argsName !in handlers ==> r.state == STATE_UNKNOWN_CMD) &&
            (command.argsName in handlers ==>
               match handlers[command.argsName](command)
               case Raised(e) => r.state == STATE_ERROR && r.data == e
               case Returned(Failure(e)) => r.state == STATE_ERROR && r.data == e
               case Returned(Success(text)) => r.state == STATE_SUCCESS && r.data == text && r.level == LEVEL_JSON)
  {
  }

  /** The corrected record differs from the one as written only on a marshal
      error. */
  lemma InternalResultAgrees(command: Command, handlers: map<string, Command -> HandlerOutcome>, now: int)
    requires command.argsName in handlers ==> !handlers[command.argsName](command).Returned? ||
                                              handlers[command.argsName](command).serialized.Success?
    ensures InternalResult(command, handlers, now) == InternalResultAsWritten(command, handlers, now)
  {
  }

  /** How one call of readSingleCmd ends: it returns true, or the process
      exits through log.Fatal, or it panics. */
  datatype Step = Continue | Fatal(msg: string) | Panic(msg: string)

  /** log.Fatal formats its operands like Print, so the "%v" stays in the text. */
  function FatalMessage(err: string): string {
    if IsCommandFormatError(err) then "Incoming command id malformed: %v" + err
    else "Data store error: %v" + err
  }

  /** The step readSingleCmd takes on ReceiveCommand's outcome, as written:
      after a timeout (no command, no error) it reads command.Cmd through a
      nil pointer. */
  function ReceivedStepAsWritten(r: Received): Step {
    if r.err.Some? then Fatal(FatalMessage(r.err.value))
    else if r.command.None? then Panic("invalid memory address or nil pointer dereference")
    else Continue
  }

  /** The timeout the BLPOP runs into while the dispatch queue is empty crashes
      the controller. */
  lemma TimeoutCrashesAsWritten(queue: seq<string>, decode: string -> Result<Command, string>, e: string)
    requires Contains(e, "timeout")
    ensures ReceivedStepAsWritten(ReceiveOutcome(queue, Some(e), decode)).Panic?
  {
  }

  /** The evidently intended step: a timeout is "not an error", so the loop
      carries on. */
  function ReceivedStep(r: Received): Step {
    if r.err.Some? then Fatal(FatalMessage(r.err.value)) else Continue
  }

  /** readSingleCmd never panics once the timeout is handled, and it exits
      only for a malformed command, never with "Data store error". */
  lemma ReceivedStepCases(queue: seq<string>, fault: Option<string>, decode: string -> Result<Command, string>)
    ensures var r := ReceiveOutcome(queue, fault, decode);
            var step := ReceivedStep(r);
            !step.Panic? &&
            (step.Fatal? <==> r.err.Some?) &&
            (step.Fatal? ==> HasPrefix(step.msg, "Incoming command id malformed: "))
  {
    ReceiveErrorsAreFormatErrors(queue, fault, decode);
  }

  /** The lists after the command was queued for the targets in order: one
      RPUSH of the payload onto each target's queue. */
  function Queued(lists: map<string, seq<string>>, targets: seq<AgentID>, payload: string)
    : map<string, seq<string>>
    decreases |targets|
  {
    if |targets| == 0 then lists
    else RPushed(Queued(lists, targets[..|targets| - 1], payload), AgentQueue(targets[|targets| - 1]), payload)
  }

  /** The hashes after the QUEUED placeholders were posted for the targets. */
  function Placed(hashes: map<string, map<string, string>>, targets: seq<AgentID>, command: Command, now: int,
                  encode: CommandResult -> string): map<string, map<string, string>>
    decreases |targets|
  {
    if |targets| == 0 then hashes
    else
      var last := targets[|targets| - 1];
      HSetted(Placed(hashes, targets[..|targets| - 1], command, now, encode),
              ResultsHashKey(command.id), AgentField(last), encode(Placeholder(last, command, now)))
  }

  /** The lists after a routed command's bookkeeping: logged, queued for each
      target, then signalled as queued. */
  function Dispatched(lists: map<string, seq<string>>, command: Command, targets: seq<AgentID>,
                      format: Command -> string): map<string, seq<string>> {
    RPushed(Queued(LPushed(lists, JOB_LOG, format(command)), targets, format(command)),
            CmdQueuedKey(command.id), QUEUED_SIGNAL)
  }

  /** With distinct targets, each target's queue gains the payload once at its
      tail, and every list that is not a target's queue is untouched. */
  lemma {:induction false} QueuedMeaning(lists: map<string, seq<string>>, targets: seq<AgentID>, payload: string)
    requires forall i, j :: 0 <= i < j < |targets| ==> targets[i] != targets[j]
    ensures forall t :: t in targets ==> ListAt(Queued(lists, targets, payload), AgentQueue(t)) ==
                                         ListAt(lists, AgentQueue(t)) + [payload]
    ensures forall k :: (forall t :: t in targets ==> k != AgentQueue(t)) ==>
                          ListAt(Queued(lists, targets, payload), k) == ListAt(lists, k)
    decreases |targets|
  {
    if |targets| > 0 {
      var n := |targets|;
      var init := targets[..n - 1];
      var last := targets[n - 1];
      QueuedMeaning(lists, init, payload);
      assert forall t :: t in targets <==> t in init || t == last;
      assert last !in init;
      forall t | t in init
        ensures AgentQueue(t) != AgentQueue(last)
      {
        if AgentQueue(t) == AgentQueue(last) {
          AgentQueueInjective(t, last);
        }
      }
    }
  }

  /** With distinct targets, the command's results hash gains exactly one
      placeholder field per target, and no other hash changes. */
  lemma {:induction false} PlacedMeaning(hashes: map<string, map<string, string>>, targets: seq<AgentID>,
                                         command: Command, now: int, encode: CommandResult -> string)
    requires forall i, j :: 0 <= i < j < |targets| ==> targets[i] != targets[j]
    ensures var h := HashAt(Placed(hashes, targets, command, now, encode), ResultsHashKey(command.id));
            forall t :: t in targets ==> AgentField(t) in h && h[AgentField(t)] == encode(Placeholder(t, command, now))
    ensures var h := HashAt(Placed(hashes, targets, command, now, encode), ResultsHashKey(command.id));
            var h0 := HashAt(hashes, ResultsHashKey(command.id));
            forall f :: (forall t :: t in targets ==> f != AgentField(t)) ==>
                          (f in h <==> f in h0) && (f in h ==> h[f] == h0[f])
    ensures forall k :: k != ResultsHashKey(command.id) ==>
                          HashAt(Placed(hashes, targets, command, now, encode), k) == HashAt(hashes, k)
    decreases |targets|
  {
    if |targets| > 0 {
      var n := |targets|;
      var init := targets[..n - 1];
      var last := targets[n - 1];
      var key := ResultsHashKey(command.id);
      PlacedMeaning(hashes, init, command, now, encode);
      var before := HashAt(Placed(hashes, init, command, now, encode), key);
      var h := HashAt(Placed(hashes, targets, command, now, encode), key);
      assert h == before[AgentField(last) := encode(Placeholder(last, command, now))];
      assert forall t :: t in targets <==> t in init || t == last;
      forall t | t in init
        ensures AgentField(t) != AgentField(last)
      {
        if AgentField(t) == AgentField(last) {
          AgentFieldInjective(t, last);
        }
      }
      forall t | t in targets
        ensures AgentField(t) in h && h[AgentField(t)] == encode(Placeholder(t, command, now))
      {
        if t != last {
          assert t in init;
        }
      }
    }
  }

  /** The bookkeeping of a routed command: it is logged once at the head of
      the job log, signalled once at the tail of its queued list, and queued
      once for each of its (distinct) targets; no other list changes. */
  lemma DispatchedMeaning(lists: map<string, seq<string>>, command: Command, targets: seq<AgentID>,
                          format: Command -> string)
    requires forall i, j :: 0 <= i < j < |targets| ==> targets[i] != targets[j]
    ensures var d := Dispatched(lists, command, targets, format);
            ListAt(d, JOB_LOG) == [format(command)] + ListAt(lists, JOB_LOG) &&
            ListAt(d, CmdQueuedKey(command.id)) == ListAt(lists, CmdQueuedKey(command.id)) + [QUEUED_SIGNAL] &&
            (forall t :: t in targets ==> ListAt(d, AgentQueue(t)) == ListAt(lists, AgentQueue(t)) + [format(command)]) &&
            (forall k :: k != JOB_LOG && k != CmdQueuedKey(command.id) && (forall t :: t in targets ==> k != AgentQueue(t)) ==>
                           ListAt(d, k) == ListAt(lists, k))
  {
    var logged := LPushed(lists, JOB_LOG, format(command));
    QueuedMeaning(logged, targets, format(command));
    forall t | t in targets
      ensures AgentQueue(t) != JOB_LOG && AgentQueue(t) != CmdQueuedKey(command.id)
    {
      KeysDisjoint(t, command.id);
    }
    KeysDisjoint(AgentID(0, 0), command.id);
  }

  class Controller {
    const store: Store
    const agents: AgentTable
    /** The results handed to sendResult, in order. */
    var sent: seq<CommandResult>

    constructor (store: Store, agents: AgentTable)
      ensures this.store == store && this.agents == agents && sent == []
    {
      this.store := store;
      this.agents := agents;
      sent := [];
    }

    /** processInternalCommand: sends the record and signals the command. */
    method ProcessInternalCommand(command: Command, handlers: map<string, Command -> HandlerOutcome>, now: int)
      modifies this, store
      ensures sent == old(sent) + [InternalResult(command, handlers, now)]
      ensures store.lists == RPushed(old(store.lists), CmdQueuedKey(command.id), QUEUED_SIGNAL)
      ensures store.hashes == old(store.hashes)
    {
      var result := CommandResult(command.id, command.nid, command.gid, STATE_ERROR, "", 0, now);
      if command.argsName in handlers {
        match handlers[command.argsName](command) {
          case Raised(e) =>
            result := result.(data := e);
          case Returned(serialized) =>
            if serialized.Failure? {
              result := result.(data := serialized.error);
            } else {
              result := result.(state := STATE_SUCCESS, data := serialized.value, level := LEVEL_JSON);
            }
        }
      } else {
        result := result.(state := STATE_UNKNOWN_CMD);
      }
      sent := sent + [result];
      var _ := SignalCommandAsQueued(store, command.id, None);
    }

    /** The routing half of readSingleCmd for a command that is not internal:
        sends the error results and builds the ids list. */
    method RouteCommand(c: Command, active: seq<AgentID>, pick: nat, now: int) returns (ids: seq<AgentID>)
      requires c.cmd != CMD_INTERNAL
      modifies this
      ensures var routing := Route(c, active, AgentOf(c.gid, c.nid) in agents.roles, pick, now);
              ids == routing.targets && sent == old(sent) + routing.errors
    {
      ids := [];
      if |c.roles| > 0 {
        if |active| == 0 {
          sent := sent + [ErrorResult(c, NoRoleMessage(c.roles), now)];
        } else if c.fanout {
          for i := 0 to |active|
            invariant ids == active[..i]
          {
            ids := ids + [active[i]];
          }
          assert active[..|active|] == active;
        } else {
          ids := [active[pick % |active|]];
        }
      } else {
        var alive := agents.IsConnected(AgentOf(c.gid, c.nid));
        if !alive {
          sent := sent + [ErrorResult(c, NOT_ALIVE_MESSAGE, now)];
        } else {
          ids := [AgentOf(c.gid, c.nid)];
        }
      }
    }

    /** The bookkeeping half of readSingleCmd: logs the command, queues it with
        a QUEUED placeholder for each target, and signals it as queued. */
    method Dispatch(c: Command, ids: seq<AgentID>, now: int, format: Command -> string,
                    encode: CommandResult -> string)
      modifies store
      ensures store.lists == Dispatched(old(store.lists), c, ids, format)
      ensures store.hashes == Placed(old(store.hashes), ids, c, now, encode)
    {
      var payload := format(c);
      store.LPush(JOB_LOG, payload);
      ghost var logged := store.lists;
      for i := 0 to |ids|
        invariant store.lists == Queued(logged, ids[..i], payload)
        invariant store.hashes == Placed(old(store.hashes), ids[..i], c, now, encode)
      {
        assert ids[..i + 1][..i] == ids[..i];
        store.RPush(AgentQueue(ids[i]), payload);
        var _ := RespondToCommandAsJustQueued(store, ids[i], c, now, encode, None);
      }
      assert ids[..|ids|] == ids;
      var _ := SignalCommandAsQueued(store, c.id, None);
    }

    /** readSingleCmd with every write to the store succeeding (the source
        only logs those errors). `fault` is the BLPOP's error, `decode` the
        JSON decoder, `format` redigo's text of a command, `encode` the JSON
        encoder of a placeholder. */
    method ReadSingleCmd(fault: Option<string>, decode: string -> Result<Command, string>,
                         active: seq<AgentID>, pick: nat, now: int, format: Command -> string,
                         encode: CommandResult -> string, handlers: map<string, Command -> HandlerOutcome>)
      returns (step: Step)
      modifies this, store
      ensures step == ReceivedStep(ReceiveOutcome(ListAt(old(store.lists), CMD_QUEUE_MAIN), fault, decode))
      ensures var r := ReceiveOutcome(ListAt(old(store.lists), CMD_QUEUE_MAIN), fault, decode);
              r.command.None? ==>
                store.lists == AfterReceive(old(store.lists), fault) &&
                store.hashes == old(store.hashes) && sent == old(sent)
      ensures var r := ReceiveOutcome(ListAt(old(store.lists), CMD_QUEUE_MAIN), fault, decode);
              r.command.Some? && r.command.value.cmd == CMD_INTERNAL ==>
                sent == old(sent) + [InternalResult(r.command.value, handlers, now)] &&
                store.lists == RPushed(AfterReceive(old(store.lists), fault), CmdQueuedKey(r.command.value.id),
                                       QUEUED_SIGNAL) &&
                store.hashes == old(store.hashes)
      ensures var r := ReceiveOutcome(ListAt(old(store.lists), CMD_QUEUE_MAIN), fault, decode);
              r.command.Some? && r.command.value.cmd != CMD_INTERNAL ==>
                var c := r.command.value;
                var routing := Route(c, active, AgentOf(c.gid, c.nid) in agents.roles, pick, now);
                sent == old(sent) + routing.errors &&
                store.lists == Dispatched(AfterReceive(old(store.lists), fault), c, routing.targets, format) &&
                store.hashes == Placed(old(store.hashes), routing.targets, c, now, encode)
    {
      var command, err := ReceiveCommand(store, fault, decode);
      if err.Some? {
        return Fatal(FatalMessage(err.value));
      }
      if command.None? {
        return Continue;
      }
      var c := command.value;
      if c.cmd == CMD_INTERNAL {
        ProcessInternalCommand(c, handlers, now);
        return Continue;
      }
      var ids := RouteCommand(c, active, pick, now);
      Dispatch(c, ids, now, format, encode);
      step := Continue;
    }
  }
}
