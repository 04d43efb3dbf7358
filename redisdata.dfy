/**
 * The controller's Redis conventions (redisdata/): the names of the dispatch
 * queue, the per-agent queues and the per-command keys, the two writers that
 * post a QUEUED placeholder and the "queued" signal, and ReceiveCommand, which
 * pops the dispatch queue and classifies what went wrong.
 *
 * A store failure is a parameter `fault` (the error's text) and a JSON codec
 * is a pair of function parameters; the clock is the parameter `now`.
 */
module RedisData {
  import opened Wrappers
  import opened Text
  import opened Core
  import opened Broker

  /** The queue the controller pops commands from. */
  const CMD_QUEUE_MAIN: string := "cmds.queue"

  const REDIS_ERROR_MESSAGE: string := "Redis error"
  const COMMAND_FORMAT_ERROR_MESSAGE: string := "Command format error"

  /** The value SignalCommandAsQueued appends. */
  const QUEUED_SIGNAL: string := "queued"

  /** "cmd.%s.queued" */
  function CmdQueuedKey(id: string): string {
    "cmd." + id + ".queued"
  }

  /** "cmd.%s.%d.%d": the list an agent answers a command on. */
  function AgentResponseKey(id: string, gid: int, nid: int): string {
    "cmd." + id + "." + IntDecimal(gid) + "." + IntDecimal(nid)
  }

  /** "jobresult:%s": the hash of a command's results, one field per agent. */
  function ResultsHashKey(id: string): string {
    "jobresult:" + id
  }

  /** getAgentQueue: "cmds:%d:%d" of the agent's two ids. */
  function AgentQueue(a: AgentID): string {
    "cmds:" + Decimal(a.gid) + ":" + Decimal(a.nid)
  }

  /** The hash field of one agent: "%d:%d". */
  function AgentField(a: AgentID): string {
    Decimal(a.gid) + ":" + Decimal(a.nid)
  }

  /** getAgentResultQueue (redisdata/others.go and main.go alike). */
  function AgentResultQueue(r: CommandResult): string {
    AgentResponseKey(r.id, r.gid, r.nid)
  }

  lemma DecimalHasNoColon(n: nat)
    ensures ':' !in Decimal(n)
  {
    DecimalRoundTrip(n);
  }

  /** "a:b" splits back into a and b when neither holds a ':'. */
  lemma SplitPair(a: string, b: string)
    requires ':' !in a && ':' !in b
    ensures Split(a + ":" + b, ':') == [a, b]
  {
    assert a + ":" + b == a + [':'] + b;
    SplitOfJoined(a, ':', b);
    SplitOfPlain(b, ':');
  }

  /** Distinct agents have distinct fields in a results hash. */
  lemma AgentFieldInjective(a: AgentID, b: AgentID)
    requires AgentField(a) == AgentField(b)
    ensures a == b
  {
    DecimalHasNoColon(a.gid);
    DecimalHasNoColon(a.nid);
    DecimalHasNoColon(b.gid);
    DecimalHasNoColon(b.nid);
    SplitPair(Decimal(a.gid), Decimal(a.nid));
    SplitPair(Decimal(b.gid), Decimal(b.nid));
    DecimalInjective(a.gid, b.gid);
    DecimalInjective(a.nid, b.nid);
  }

  /** Distinct agents have distinct queues. */
  lemma AgentQueueInjective(a: AgentID, b: AgentID)
    requires AgentQueue(a) == AgentQueue(b)
    ensures a == b
  {
    assert AgentQueue(a) == "cmds:" + AgentField(a);
    assert AgentQueue(b) == "cmds:" + AgentField(b);
    assert AgentField(a) == AgentQueue(a)[5..];
    assert AgentField(b) == AgentQueue(b)[5..];
    AgentFieldInjective(a, b);
  }

  /** The key families never collide: the dispatch queue, an agent's queue, the
      queued signal and the command log are four different lists. */
  lemma KeysDisjoint(a: AgentID, id: string)
    ensures AgentQueue(a) != CMD_QUEUE_MAIN
    ensures AgentQueue(a) != CmdQueuedKey(id)
    ensures CmdQueuedKey(id) != CMD_QUEUE_MAIN
    ensures AgentQueue(a) != "joblog" && CmdQueuedKey(id) != "joblog"
  {
    assert AgentQueue(a)[4] == ':' && CMD_QUEUE_MAIN[4] == '.';
    assert AgentQueue(a)[3] == 's' && CmdQueuedKey(id)[3] == '.';
    assert CMD_QUEUE_MAIN[3] == 's';
  }

  /** The QUEUED record RespondToCommandAsJustQueued posts for one agent. */
  function Placeholder(agentID: AgentID, command: Command, now: int): (r: CommandResult)
    ensures r.id == command.id && r.state == STATE_QUEUED && r.data == "" && r.level == 0
    ensures ToUint(r.gid) == agentID.gid && ToUint(r.nid) == agentID.nid
  {
    assert ToUint(ToInt(agentID.gid)) == agentID.gid;
    assert ToUint(ToInt(agentID.nid)) == agentID.nid;
    CommandResult(command.id, ToInt(agentID.nid), ToInt(agentID.gid), STATE_QUEUED, "", 0, now)
  }

  /** The placeholder's address comes from the agent, never from the command. */
  lemma PlaceholderIgnoresCommandAddress(agentID: AgentID, c: Command, d: Command, now: int)
    requires c.id == d.id
    ensures Placeholder(agentID, c, now) == Placeholder(agentID, d, now)
  {
  }

  /** For an agent whose ids fit a signed int, the placeholder names the list
      the agent answers the command on. */
  lemma PlaceholderResultQueue(agentID: AgentID, command: Command, now: int)
    requires agentID.gid < WORD / 2 && agentID.nid < WORD / 2
    ensures AgentResultQueue(Placeholder(agentID, command, now)) ==
            "cmd." + command.id + "." + Decimal(agentID.gid) + "." + Decimal(agentID.nid)
  {
  }

  /** RespondToCommandAsJustQueued: HSET jobresult:<id> "<gid>:<nid>" to the
      encoded placeholder; a store failure is wrapped as "Redis error: ...". */
  method RespondToCommandAsJustQueued(store: Store, agentID: AgentID, command: Command, now: int,
                                      encode: CommandResult -> string, fault: Option<string>)
    returns (err: Option<string>)
    modifies store
    ensures fault.Some? ==> err == Some(Errorf(REDIS_ERROR_MESSAGE, fault.value)) &&
                            store.hashes == old(store.hashes)
    ensures fault.None? ==> err.None? &&
                            store.hashes == HSetted(old(store.hashes), ResultsHashKey(command.id), AgentField(agentID),
                                                    encode(Placeholder(agentID, command, now)))
    ensures store.lists == old(store.lists)
  {
    var placeholder := Placeholder(agentID, command, now);
    var data := encode(placeholder);
    if fault.Some? {
      return Some(Errorf(REDIS_ERROR_MESSAGE, fault.value));
    }
    store.HSet(ResultsHashKey(command.id), AgentField(agentID), data);
    err := None;
  }

  /** SignalCommandAsQueued: RPUSH cmd.<id>.queued "queued". */
  method SignalCommandAsQueued(store: Store, id: string, fault: Option<string>) returns (err: Option<string>)
    modifies store
    ensures fault.Some? ==> err == Some(Errorf(REDIS_ERROR_MESSAGE, fault.value)) && store.lists == old(store.lists)
    ensures fault.None? ==> err.None? && store.lists == RPushed(old(store.lists), CmdQueuedKey(id), QUEUED_SIGNAL)
    ensures store.hashes == old(store.hashes)
  {
    if fault.Some? {
      return Some(Errorf(REDIS_ERROR_MESSAGE, fault.value));
    }
    store.RPush(CmdQueuedKey(id), QUEUED_SIGNAL);
    err := None;
  }

  /** IsCommandFormatError */
  predicate IsCommandFormatError(err: string) {
    HasPrefix(err, COMMAND_FORMAT_ERROR_MESSAGE)
  }

  /** The two error families are told apart: a wrapped store error is never
      classified as a format error, a wrapped format error always is. */
  lemma ErrorClassification(msg: string)
    ensures IsCommandFormatError(Errorf(COMMAND_FORMAT_ERROR_MESSAGE, msg))
    ensures !IsCommandFormatError(Errorf(REDIS_ERROR_MESSAGE, msg))
  {
    var e := Errorf(REDIS_ERROR_MESSAGE, msg);
    assert e[0] == 'R';
  }

  /** What ReceiveCommand returns: a command, an error, or neither. */
  datatype Received = Received(command: Option<Command>, err: Option<string>)

  /** The outcome of ReceiveCommand for the dispatch queue's contents, the
      error of the BLPOP (if any) and a JSON decoder that gives the decoded
      command or the decoder's error text. A BLPOP on an empty queue waits
      until the connection's read timeout, so it ends as a timeout does. */
  function ReceiveOutcome(queue: seq<string>, fault: Option<string>, decode: string -> Result<Command, string>)
    : Received
  {
    match fault
    case Some(e) =>
      if Contains(e, "timeout") then Received(None, None)
      else Received(None, Some(Errorf(COMMAND_FORMAT_ERROR_MESSAGE, e)))
    case None =>
      if queue == [] then Received(None, None)
      else
        match decode(queue[0])
        case Failure(e) => Received(None, Some(Errorf(COMMAND_FORMAT_ERROR_MESSAGE, e)))
        case Success(c) => Received(Some(c), None)
  }

  /** The lists after ReceiveCommand: the head of the dispatch queue is gone
      whenever the BLPOP returned an item, whether or not it decoded. */
  function AfterReceive(lists: map<string, seq<string>>, fault: Option<string>): (r: map<string, seq<string>>)
    ensures var queue := ListAt(lists, CMD_QUEUE_MAIN);
            if fault.None? && queue != [] then [queue[0]] + ListAt(r, CMD_QUEUE_MAIN) == queue
            else r == lists
    ensures forall k :: k != CMD_QUEUE_MAIN ==> ListAt(r, k) == ListAt(lists, k)
  {
    var queue := ListAt(lists, CMD_QUEUE_MAIN);
    if fault.None? && queue != [] then lists[CMD_QUEUE_MAIN := queue[1..]] else lists
  }

  method ReceiveCommand(store: Store, fault: Option<string>, decode: string -> Result<Command, string>)
    returns (command: Option<Command>, err: Option<string>)
    modifies store
    ensures Received(command, err) == ReceiveOutcome(ListAt(old(store.lists), CMD_QUEUE_MAIN), fault, decode)
    ensures store.lists == AfterReceive(old(store.lists), fault)
    ensures store.hashes == old(store.hashes)
  {
    if fault.Some? {
      if Contains(fault.value, "timeout") {
        return None, None;
      }
      return None, Some(Errorf(COMMAND_FORMAT_ERROR_MESSAGE, fault.value));
    }
    var message := store.LPop(CMD_QUEUE_MAIN);
    if message.None? {
      return None, None;
    }
    match decode(message.value) {
      case Failure(e) =>
        command, err := None, Some(Errorf(COMMAND_FORMAT_ERROR_MESSAGE, e));
      case Success(c) =>
        command, err := Some(c), None;
    }
  }

  /** Every error ReceiveCommand returns is classified as a format error, so
      the controller's "Data store error" branch is never taken. */
  lemma ReceiveErrorsAreFormatErrors(queue: seq<string>, fault: Option<string>,
                                     decode: string -> Result<Command, string>)
    ensures var r := ReceiveOutcome(queue, fault, decode);
            r.err.Some? ==> IsCommandFormatError(r.err.value)
  {
    var r := ReceiveOutcome(queue, fault, decode);
    if r.err.Some? {
      assert exists m :: r.err.value == Errorf(COMMAND_FORMAT_ERROR_MESSAGE, m);
      var m :| r.err.value == Errorf(COMMAND_FORMAT_ERROR_MESSAGE, m);
      ErrorClassification(m);
    }
  }

  /** A command and an error are never returned together; neither is returned
      exactly when the wait timed out (or found nothing). */
  lemma ReceiveCases(queue: seq<string>, fault: Option<string>, decode: string -> Result<Command, string>)
    ensures var r := ReceiveOutcome(queue, fault, decode);
            !(r.command.Some? && r.err.Some?) &&
            (r.command.None? && r.err.None? <==>
               (fault.Some? && Contains(fault.value, "timeout")) || (fault.None? && queue == [])) &&
            (r.command.Some? <==> fault.None? && queue != [] && decode(queue[0]).Success?) &&
            (r.command.Some? ==> r.command.value == decode(queue[0]).value)
  {
  }
}
