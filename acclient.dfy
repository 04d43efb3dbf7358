/**
 * The Python client (client/acclient.py): Client builds command descriptors
 * and pushes their JSON onto the 'cmds_queue' list; a descriptor (BaseCmd,
 * and Cmd, which adds the command's name, run arguments and data) fetches
 * its result from "cmds_queue_<id>" once and caches it.
 *
 * The JSON module is the parameter `json`, uuid4 the parameter `freshId`.
 * BLPOP is modelled as a pop that finds the result list empty or not;
 * finding it empty is the end of the wait (the timeout). Command ids are
 * strings.
 */
module AcClient {
  import opened Wrappers
  import opened Python
  import opened Levels
  import opened RunArguments
  import opened LevelsProperties
  import opened RunArgumentsProperties
  import opened Broker

  /** The list the client pushes commands onto ('cmds_queue', which is not the
      controller's "cmds.queue"). */
  const CMDS_QUEUE: string := "cmds_queue"

  const CMD_EXECUTE: string := "execute"
  const CMD_KILL: string := "kill"
  const CMD_GET_PROCESS_STATS: string := "get_process_stats"
  const CMD_GET_PROCESSES_STATS: string := "get_processes_stats"

  /** The list a command's result arrives on. */
  function ResultQueue(id: string): string {
    CMDS_QUEUE + "_" + id
  }

  /** The error of unpacking the None that BLPOP gives when nothing arrived. */
  const NOTHING_ARRIVED: PyError := TypeError("'NoneType' object is not iterable")

  /** Client.cmd's id: the caller's id when it is truthy, else a fresh uuid4. */
  function CmdId(id: Option<string>, freshId: string): string {
    if id.Some? && id.value != "" then id.value else freshId
  }

  /** The dict Cmd.dump() returns. */
  function CmdDump(id: string, gid: Value, nid: Value, cmd: Value, args: RunArgs, data: Value, json: Json)
    : map<string, Value>
  {
    map["id" := PyStr(id), "gid" := gid, "nid" := nid, "cmd" := cmd, "args" := PyDict(DumpSpec(args)),
        "data" := if data.PyNone? then PyStr("") else PyStr(json.dumps(data))]
  }

  /** The text Client.cmd pushes: the JSON of the dump. */
  function Payload(id: string, gid: Value, nid: Value, cmd: Value, args: RunArgs, data: Value, json: Json): string {
    json.dumps(PyDict(CmdDump(id, gid, nid, cmd, args, data, json)))
  }

  /** The dump has exactly the six keys; its data is '' exactly when there is
      no data, and otherwise decodes back to the data. */
  lemma CmdDumpMeaning(id: string, gid: Value, nid: Value, cmd: Value, args: RunArgs, data: Value, json: Json)
    requires Lawful(json)
    ensures var d := CmdDump(id, gid, nid, cmd, args, data, json);
            d.Keys == {"id", "gid", "nid", "cmd", "args", "data"} &&
            d["id"] == PyStr(id) && d["gid"] == gid && d["nid"] == nid && d["cmd"] == cmd &&
            d["args"] == PyDict(DumpSpec(args)) &&
            d["data"].PyStr? && (d["data"] == PyStr("") <==> data.PyNone?) &&
            (!data.PyNone? ==> json.loads(d["data"].s) == Some(data))
  {
    var d := CmdDump(id, gid, nid, cmd, args, data, json);
    if !data.PyNone? {
      assert json.dumps(data) != "";
    }
  }

  /** What get_result gives and leaves behind: the result, the new cache and
      the broker's lists. */
  datatype Fetch = Fetch(r: Result<Value, PyError>, cache: Value, lists: map<string, seq<string>>)

  /** get_result: with no cached result (None), pop the result list and cache
      what json.loads gives; otherwise return the cache and touch nothing. */
  function FetchSpec(cache: Value, lists: map<string, seq<string>>, id: string, json: Json): Fetch {
    if !cache.PyNone? then Fetch(Success(cache), cache, lists)
    else
      var queue := ListAt(lists, ResultQueue(id));
      if queue == [] then Fetch(Failure(NOTHING_ARRIVED), PyNone, lists)
      else
        var popped := lists[ResultQueue(id) := queue[1..]];
        match Loads(json, PyStr(queue[0]))
        case Failure(e) => Fetch(Failure(e), PyNone, popped)
        case Success(v) => Fetch(Success(v), v, popped)
  }

  /** The first fetch pops the head of the result list and nothing else; once
      a result other than None is cached, a second fetch returns it and leaves
      the broker unchanged. */
  lemma FetchOnce(lists: map<string, seq<string>>, id: string, json: Json)
    ensures var f := FetchSpec(PyNone, lists, id, json);
            var queue := ListAt(lists, ResultQueue(id));
            (queue == [] ==> f == Fetch(Failure(NOTHING_ARRIVED), PyNone, lists)) &&
            (queue != [] ==> ListAt(f.lists, ResultQueue(id)) == queue[1..] &&
                             (forall k :: k != ResultQueue(id) ==> ListAt(f.lists, k) == ListAt(lists, k)) &&
                             f.r == Loads(json, PyStr(queue[0]))) &&
            (f.r.Success? && !f.r.value.PyNone? ==>
               FetchSpec(f.cache, f.lists, id, json) == Fetch(f.r, f.cache, f.lists))
  {
  }

  /** A result the agent pushed as JSON text comes back as the value encoded. */
  lemma FetchDecodes(lists: map<string, seq<string>>, id: string, json: Json, v: Value)
    requires Lawful(json)
    requires ListAt(lists, ResultQueue(id)) != [] && ListAt(lists, ResultQueue(id))[0] == json.dumps(v)
    ensures FetchSpec(PyNone, lists, id, json).r == Success(v)
  {
    assert json.loads(json.dumps(v)) == Some(v);
  }

  /** get_stats after the result arrived: the decoded data when the state is
      'SUCCESS', else an Exception carrying the data. */
  function StatsOf(stats: Value, json: Json): Result<Value, PyError> {
    var state :- GetItem(stats, "state");
    if state != PyStr("SUCCESS") then
      var data :- GetItem(stats, "data");
      Failure(Exception(data))
    else
      var data :- GetItem(stats, "data");
      Loads(json, data)
  }

  lemma StatsCases(state: Value, data: Value, json: Json, v: Value)
    ensures state != PyStr("SUCCESS") ==>
              StatsOf(PyDict(map["state" := state, "data" := data]), json) == Failure(Exception(data))
    ensures Lawful(json) && data == PyStr(json.dumps(v)) ==>
              StatsOf(PyDict(map["state" := PyStr("SUCCESS"), "data" := data]), json) == Success(v)
    ensures StatsOf(PyDict(map["data" := data]), json) == Failure(KeyError("state"))
  {
    if Lawful(json) && data == PyStr(json.dumps(v)) {
      assert json.loads(json.dumps(v)) == Some(v);
    }
  }

  /** get_processes and the get_*_info calls: json.loads(result['data']). */
  function InfoOf(result: Value, json: Json): Result<Value, PyError> {
    var data :- GetItem(result, "data");
    Loads(json, data)
  }

  lemma InfoCases(result: Value, json: Json, v: Value)
    ensures result.PyDict? && "data" !in result.entries ==> InfoOf(result, json) == Failure(KeyError("data"))
    ensures Lawful(json) && result == PyDict(map["data" := PyStr(json.dumps(v))]) ==>
              InfoOf(result, json) == Success(v)
  {
    if Lawful(json) && result == PyDict(map["data" := PyStr(json.dumps(v))]) {
      assert json.loads(json.dumps(v)) == Some(v);
    }
  }

  /** The keywords of RunArgs(name=executable, args=cmdargs). */
  function Overlay(executable: Value, cmdargs: Value): map<string, Value> {
    map[Key(Name) := executable, Key(Args) := cmdargs]
  }

  /** The run arguments execute sends, or what it raises. */
  function ExecuteArgs(executable: Value, cmdargs: Value, args: Option<RunArgs>): Result<RunArgs, PyError> {
    if !cmdargs.PyNone? && !cmdargs.PyList? then Failure(ValueError("cmdargs must be a list"))
    else
      var runArgs :- ConstructSpec(Overlay(executable, cmdargs));
      if args.None? then Success(runArgs) else UpdateSpec(args.value, RunArgsObject(runArgs))
  }

  /** The overlay RunArgs(name=executable, args=cmdargs) execute builds: the
      defaults with the executable and the cmdargs. */
  lemma ExecuteOverlay(executable: Value, cmdargs: Value)
    ensures ConstructSpec(Overlay(executable, cmdargs)) ==
            Success(DefaultRunArgs().(name := executable, args := cmdargs))
  {
    var kw := Overlay(executable, cmdargs);
    assert Lookup(kw, Name) == executable && Lookup(kw, Args) == cmdargs;
    ConstructNameArgs(kw);
  }

  /** execute: a cmdargs that is neither None nor a list raises ValueError;
      otherwise, without caller args, the command runs with the executable,
      the cmdargs and the defaults. */
  lemma ExecuteArgsCases(executable: Value, cmdargs: Value, args: Option<RunArgs>)
    ensures !cmdargs.PyNone? && !cmdargs.PyList? ==>
              ExecuteArgs(executable, cmdargs, args) == Failure(ValueError("cmdargs must be a list"))
    ensures (cmdargs.PyNone? || cmdargs.PyList?) && args.None? ==>
              ExecuteArgs(executable, cmdargs, args) == Success(DefaultRunArgs().(name := executable, args := cmdargs))
  {
    ExecuteOverlay(executable, cmdargs);
  }

  /** The overlay is a valid RunArgs whose loglevels are not empty. */
  lemma OverlayValid(executable: Value, cmdargs: Value)
    ensures var o := DefaultRunArgs().(name := executable, args := cmdargs);
            Valid(o) && LevelList(o.loglevels) != []
  {
    ExecuteOverlay(executable, cmdargs);
    ConstructValid(Overlay(executable, cmdargs));
    assert 0 in LEVELS;
    assert 0 in AsList(LEVELS);
  }

  /** execute with caller args updates them with the overlay. */
  lemma ExecuteUpdates(executable: Value, cmdargs: Value, a: RunArgs)
    requires cmdargs.PyNone? || cmdargs.PyList?
    ensures ExecuteArgs(executable, cmdargs, Some(a)) ==
            UpdateSpec(a, RunArgsObject(DefaultRunArgs().(name := executable, args := cmdargs)))
  {
    ExecuteOverlay(executable, cmdargs);
  }

  /** A plain field of execute's run arguments with caller args: the overlay's
      value when truthy, else the caller's when truthy, else the default. */
  lemma ExecuteMergeField(executable: Value, cmdargs: Value, a: RunArgs, f: Field)
    requires Valid(a)
    requires cmdargs.PyNone? || cmdargs.PyList?
    requires !f.IsLevel()
    ensures ExecuteArgs(executable, cmdargs, Some(a)).Success?
    ensures Raw(ExecuteArgs(executable, cmdargs, Some(a)).value, f) ==
            Pick(Attr(DefaultRunArgs().(name := executable, args := cmdargs), f), Attr(a, f), Default(f))
  {
    ExecuteUpdates(executable, cmdargs, a);
    OverlayValid(executable, cmdargs);
    UpdateWithRunArgs(a, DefaultRunArgs().(name := executable, args := cmdargs));
  }

  /** execute with caller args, plain fields: the overlay's truthy fields win,
      so the executable and a non-empty cmdargs replace the caller's, and the
      caller's other fields survive when truthy. */
  lemma ExecuteMergePlain(executable: Value, cmdargs: Value, a: RunArgs)
    requires Valid(a)
    requires cmdargs.PyNone? || cmdargs.PyList?
    ensures ExecuteArgs(executable, cmdargs, Some(a)).Success?
    ensures var r := ExecuteArgs(executable, cmdargs, Some(a)).value;
            r.name == (if Truthy(executable) then executable else if Truthy(a.name) then a.name else PyNone) &&
            r.args == (if Truthy(cmdargs) then cmdargs else if Truthy(a.args) then a.args else PyNone) &&
            r.domain == (if Truthy(a.domain) then a.domain else PyNone) &&
            r.maxTime == (if Truthy(a.maxTime) then a.maxTime else PyInt(0))
  {
    var o := DefaultRunArgs().(name := executable, args := cmdargs);
    assert Attr(o, Name) == executable && Attr(o, Domain) == PyNone && Attr(o, MaxTime) == PyInt(0);
    ExecuteMergeField(executable, cmdargs, a, Name);
    ExecuteMergeField(executable, cmdargs, a, Args);
    ExecuteMergeField(executable, cmdargs, a, Domain);
    ExecuteMergeField(executable, cmdargs, a, MaxTime);
  }

  /** execute with caller args, level fields: the overlay's default loglevels
      (every level) always replaces the caller's, while the caller's db and ac
      levels survive, an empty list becoming None. */
  lemma ExecuteMergeLevels(executable: Value, cmdargs: Value, a: RunArgs)
    requires Valid(a)
    requires cmdargs.PyNone? || cmdargs.PyList?
    ensures ExecuteArgs(executable, cmdargs, Some(a)).Success?
    ensures var r := ExecuteArgs(executable, cmdargs, Some(a)).value;
            r.loglevels == Some(AsList(LEVELS)) &&
            r.loglevelsDb == (if a.loglevelsDb == Some([]) then None else a.loglevelsDb) &&
            r.loglevelsAc == (if a.loglevelsAc == Some([]) then None else a.loglevelsAc)
  {
    ExecuteUpdates(executable, cmdargs, a);
    var o := DefaultRunArgs().(name := executable, args := cmdargs);
    OverlayValid(executable, cmdargs);
    UpdateWithRunArgs(a, o);
    var r := UpdateSpec(a, RunArgsObject(o)).value;
    assert RawLevels(r, Loglevels) == PickLevels(RawLevels(o, Loglevels), RawLevels(a, Loglevels), DefaultLevels(Loglevels));
    assert RawLevels(r, LoglevelsDb) == PickLevels(RawLevels(o, LoglevelsDb), RawLevels(a, LoglevelsDb), DefaultLevels(LoglevelsDb));
    assert RawLevels(r, LoglevelsAc) == PickLevels(RawLevels(o, LoglevelsAc), RawLevels(a, LoglevelsAc), DefaultLevels(LoglevelsAc));
  }

  class Client {
    /** The Redis connection. */
    const store: Store

    /** Client(): the connection and its PING are left out. */
    constructor (store: Store)
      ensures this.store == store
    {
      this.store := store;
    }

    /** Client.cmd: a Cmd for the id (or a fresh one), whose dump is pushed as
        JSON onto the head of 'cmds_queue'; nothing is pushed when the run
        arguments are not a RunArgs. */
    method Cmd(gid: Value, nid: Value, cmd: Value, args: Object, data: Value, id: Option<string>,
               freshId: string, json: Json)
      returns (r: Result<Cmd, PyError>)
      modifies store
      ensures args.PlainObject? ==> r == Failure(ValueError("Invalid arguments")) && store.lists == old(store.lists)
      ensures args.RunArgsObject? ==>
                r.Success? && fresh(r.value) && fresh(r.value.base) &&
                r.value.Describes(this, CmdId(id, freshId), gid, nid, cmd, args.other, data)
      ensures args.RunArgsObject? ==>
                store.lists == LPushed(old(store.lists), CMDS_QUEUE, Payload(CmdId(id, freshId), gid, nid, cmd, args.other, data, json))
      ensures store.hashes == old(store.hashes)
    {
      var cmdId := CmdId(id, freshId);
      r := NewCmd(this, cmdId, gid, nid, cmd, args, data);
      if r.Failure? {
        return;
      }
      var payload := json.dumps(PyDict(r.value.Dump(json)));
      r.value.DumpIsPayload(this, cmdId, gid, nid, cmd, args.other, data, json);
      store.LPush(CMDS_QUEUE, payload);
    }

    /** execute: checks cmdargs, builds the run arguments and sends 'execute'. */
    method Execute(gid: Value, nid: Value, executable: Value, cmdargs: Value, args: Option<RunArgs>, data: Value,
                   id: Option<string>, freshId: string, json: Json)
      returns (r: Result<Cmd, PyError>)
      modifies store
      ensures ExecuteArgs(executable, cmdargs, args).Failure? ==>
                r == Failure(ExecuteArgs(executable, cmdargs, args).error) && store.lists == old(store.lists)
      ensures ExecuteArgs(executable, cmdargs, args).Success? ==>
                r.Success? && fresh(r.value) &&
                r.value.Describes(this, CmdId(id, freshId), gid, nid, PyStr(CMD_EXECUTE),
                                  ExecuteArgs(executable, cmdargs, args).value, data) &&
                store.lists == LPushed(old(store.lists), CMDS_QUEUE,
                                       Payload(CmdId(id, freshId), gid, nid, PyStr(CMD_EXECUTE),
                                               ExecuteArgs(executable, cmdargs, args).value, data, json))
      ensures store.hashes == old(store.hashes)
    {
      if !cmdargs.PyNone? && !cmdargs.PyList? {
        return Failure(ValueError("cmdargs must be a list"));
      }
      var runArgs := New(Overlay(executable, cmdargs));
      if runArgs.Failure? {
        return Failure(runArgs.error);
      }
      if args.Some? {
        runArgs := Update(args.value, RunArgsObject(runArgs.value));
        if runArgs.Failure? {
          return Failure(runArgs.error);
        }
      }
      r := Cmd(gid, nid, PyStr(CMD_EXECUTE), RunArgsObject(runArgs.value), data, id, freshId, json);
    }

    /** get_by_id: a descriptor for a command sent earlier. */
    method GetById(gid: Value, nid: Value, id: string) returns (c: BaseCmd)
      ensures fresh(c) && c.client == this && c.id == id && c.gid == gid && c.nid == nid && c.result == PyNone
    {
      c := new BaseCmd(this, id, gid, nid);
    }

    /** get_processes: sends get_processes_stats with the filter and decodes
        the data of its result. */
    method GetProcesses(gid: Value, nid: Value, domain: Value, name: Value, freshId: string, json: Json)
      returns (r: Result<Value, PyError>)
      modifies store
      ensures var pushed := LPushed(old(store.lists), CMDS_QUEUE,
                                    Payload(freshId, gid, nid, PyStr(CMD_GET_PROCESSES_STATS), DefaultRunArgs(),
                                            PyDict(map["domain" := domain, "name" := name]), json));
              var f := FetchSpec(PyNone, pushed, freshId, json);
              store.lists == f.lists && r == (if f.r.Failure? then f.r else InfoOf(f.r.value, json))
      ensures store.hashes == old(store.hashes)
    {
      var runArgs := New(map[]);
      ConstructDefault();
      var c := Cmd(gid, nid, PyStr(CMD_GET_PROCESSES_STATS), RunArgsObject(runArgs.value),
                   PyDict(map["domain" := domain, "name" := name]), None, freshId, json);
      var result := c.value.base.GetResult(json);
      if result.Failure? {
        return result;
      }
      r := InfoOf(result.value, json);
    }
  }

  /** A command descriptor: the id, the address and the cached result (None
      until a result other than None has been fetched). */
  class BaseCmd {
    const client: Client
    const id: string
    const gid: Value
    const nid: Value
    var result: Value

    constructor (client: Client, id: string, gid: Value, nid: Value)
      ensures this.client == client && this.id == id && this.gid == gid && this.nid == nid && result == PyNone
    {
      this.client := client;
      this.id := id;
      this.gid := gid;
      this.nid := nid;
      result := PyNone;
    }

    /** get_result */
    method GetResult(json: Json) returns (r: Result<Value, PyError>)
      modifies this, client.store
      ensures Fetch(r, result, client.store.lists) == FetchSpec(old(result), old(client.store.lists), id, json)
      ensures client.store.hashes == old(client.store.hashes)
    {
      if result.PyNone? {
        var item := client.store.LPop(ResultQueue(id));
        if item.None? {
          return Failure(NOTHING_ARRIVED);
        }
        var loaded := Loads(json, PyStr(item.value));
        if loaded.Failure? {
          return Failure(loaded.error);
        }
        result := loaded.value;
      }
      r := Success(result);
    }

    /** kill: sends 'kill' for this command's id under a fresh id. */
    method Kill(freshId: string, json: Json) returns (r: Cmd)
      modifies client.store
      ensures fresh(r) && r.Describes(client, freshId, gid, nid, PyStr(CMD_KILL), DefaultRunArgs(), PyDict(map["id" := PyStr(id)]))
      ensures client.store.lists ==
              LPushed(old(client.store.lists), CMDS_QUEUE,
                      Payload(freshId, gid, nid, PyStr(CMD_KILL), DefaultRunArgs(), PyDict(map["id" := PyStr(id)]), json))
      ensures client.store.hashes == old(client.store.hashes)
    {
      var runArgs := New(map[]);
      ConstructDefault();
      var c := client.Cmd(gid, nid, PyStr(CMD_KILL), RunArgsObject(runArgs.value), PyDict(map["id" := PyStr(id)]),
                          None, freshId, json);
      r := c.value;
    }

    /** get_stats: sends 'get_process_stats' for this command's id, waits for
        its result and checks its state. */
    method GetStats(freshId: string, json: Json) returns (r: Result<Value, PyError>)
      modifies client.store
      ensures var pushed := LPushed(old(client.store.lists), CMDS_QUEUE,
                                    Payload(freshId, gid, nid, PyStr(CMD_GET_PROCESS_STATS), DefaultRunArgs(),
                                            PyDict(map["id" := PyStr(id)]), json));
              var f := FetchSpec(PyNone, pushed, freshId, json);
              client.store.lists == f.lists && r == (if f.r.Failure? then f.r else StatsOf(f.r.value, json))
      ensures client.store.hashes == old(client.store.hashes)
    {
      var runArgs := New(map[]);
      ConstructDefault();
      var c := client.Cmd(gid, nid, PyStr(CMD_GET_PROCESS_STATS), RunArgsObject(runArgs.value),
                          PyDict(map["id" := PyStr(id)]), None, freshId, json);
      var stats := c.value.base.GetResult(json);
      if stats.Failure? {
        return stats;
      }
      r := StatsOf(stats.value, json);
    }
  }

  /** A command sent by Client.cmd: a descriptor with its name, run arguments
      and data. */
  class Cmd {
    const base: BaseCmd
    const cmd: Value
    const args: RunArgs
    const data: Value

    constructor (base: BaseCmd, cmd: Value, args: RunArgs, data: Value)
      ensures this.base == base && this.cmd == cmd && this.args == args && this.data == data
    {
      this.base := base;
      this.cmd := cmd;
      this.args := args;
      this.data := data;
    }

    /** The descriptor was made by the client for this id, address, command,
        run arguments and data, and has no result yet. */
    predicate Describes(client: Client, id: string, gid: Value, nid: Value, cmd: Value, args: RunArgs, data: Value)
      reads this, base
    {
      base.client == client && base.id == id && base.gid == gid && base.nid == nid && base.result == PyNone &&
      this.cmd == cmd && this.args == args && this.data == data
    }

    /** Cmd.dump() */
    function Dump(json: Json): map<string, Value> {
      CmdDump(base.id, base.gid, base.nid, cmd, args, data, json)
    }

    lemma DumpIsPayload(client: Client, id: string, gid: Value, nid: Value, cmd: Value, args: RunArgs, data: Value,
                        json: Json)
      requires Describes(client, id, gid, nid, cmd, args, data)
      ensures json.dumps(PyDict(Dump(json))) == Payload(id, gid, nid, cmd, args, data, json)
    {
    }
  }

  /** Cmd(...): ValueError unless the run arguments are a RunArgs. */
  method NewCmd(client: Client, id: string, gid: Value, nid: Value, cmd: Value, runArgs: Object, data: Value)
    returns (r: Result<Cmd, PyError>)
    ensures runArgs.PlainObject? ==> r == Failure(ValueError("Invalid arguments"))
    ensures runArgs.RunArgsObject? ==>
              r.Success? && fresh(r.value) && fresh(r.value.base) &&
              r.value.Describes(client, id, gid, nid, cmd, runArgs.other, data)
  {
    if !runArgs.RunArgsObject? {
      return Failure(ValueError("Invalid arguments"));
    }
    var base := new BaseCmd(client, id, gid, nid);
    var c := new Cmd(base, cmd, runArgs.other, data);
    r := Success(c);
  }
}
