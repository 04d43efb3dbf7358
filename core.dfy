/**
 * The controller's shared Go types (core/commands.go, core/agents.go) and the
 * two integer conversions the controller applies to agent ids, with Go's
 * 64-bit wrap-around written out.
 */
module Core {

  /** 2^64: Go's int and uint are 64 bits wide on the controller's platforms. */
  const WORD: int := 0x1_0000_0000_0000_0000

  /** Go's uint. */
  type Uint = u: int | 0 <= u < WORD

  /** Go's uint(i) for an int i: the two's-complement bits read as unsigned. */
  function ToUint(i: int): (u: Uint)
    ensures u < WORD
    ensures 0 <= i < WORD ==> u == i
    ensures (u - i) % WORD == 0
  {
    i % WORD
  }

  /** Go's int(u) for a uint u: the same bits read as signed. */
  function ToInt(u: Uint): (i: int)
    ensures -WORD / 2 <= i < WORD / 2
    ensures u < WORD / 2 ==> i == u
    ensures (u - i) % WORD == 0
  {
    if u < WORD / 2 then u else u - WORD
  }

  /** A signed 64-bit value survives the round trip through uint. */
  lemma IntUintRoundTrip(i: int)
    requires -WORD / 2 <= i < WORD / 2
    ensures ToInt(ToUint(i)) == i
  {
    if i < 0 {
      assert ToUint(i) == i + WORD;
    }
  }

  /** core.AgentID */
  datatype AgentID = AgentID(gid: Uint, nid: Uint)

  /** An AgentID as Go builds it from a command's int Gid and Nid. */
  function AgentOf(gid: int, nid: int): AgentID {
    AgentID(ToUint(gid), ToUint(nid))
  }

  /** core.Command; Args holds only the name ("args.name"). */
  datatype Command = Command(
    id: string,
    gid: int,
    nid: int,
    cmd: string,
    roles: seq<string>,
    fanout: bool,
    data: string,
    argsName: string)

  /** core.CommandResult */
  datatype CommandResult = CommandResult(
    id: string,
    nid: int,
    gid: int,
    state: string,
    data: string,
    level: int,
    startTime: int)

  const STATE_QUEUED: string := "QUEUED"
  const STATE_ERROR: string := "ERROR"
  const STATE_SUCCESS: string := "SUCCESS"
  const STATE_UNKNOWN_CMD: string := "UNKNOWN_CMD"

  /** The result level that marks JSON data. */
  const LEVEL_JSON: int := 20

  /** The text of fmt.Errorf("%s: %v", prefix, err). */
  function Errorf(prefix: string, err: string): (msg: string)
    ensures |msg| == |prefix| + 2 + |err|
    ensures msg[..|prefix|] == prefix && msg[|prefix|..|prefix| + 2] == ": " && msg[|prefix| + 2..] == err
  {
    prefix + ": " + err
  }
}
