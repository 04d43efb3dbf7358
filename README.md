# agentcontroller2 command path, modelled in Dafny

agentcontroller2 is a command broker between clients and node agents. Both
sides speak through Redis:

- A Python client (`client/acclient.py`) builds run arguments (`RunArgs`),
  wraps them in a command, and pushes the command's JSON onto a Redis list.
  It then waits on a per-command list for the result.
- The Go controller (`main.go`) pops commands off the dispatch queue.
  - It answers `controller` commands itself.
  - It routes every other command either by role or by grid/node id
    (`gid`/`nid`).
  - It logs the command, queues it on each target agent's list, and posts a
    `QUEUED` placeholder result for each target in the command's results
    hash.
  - It signals that the command was queued.
- The controller keeps a table of connected agents and their roles
  (`agentdata/agentdata.go`).
- It talks to Redis through `redisdata`: key formats, receiving commands,
  placeholders and signals.
- Two Python consumers post-process results:
  - the legacy adapter (`client/acclient_ext/legacyclient.py`);
  - the Syncthing start-up handler (`handlers/startup.py`). It makes sure
    an agent's device is known to Syncthing and shares a folder with it.

The model has one module per part of the system:

| module | file | models |
|---|---|---|
| `Wrappers` | wrappers.dfy | `Option` and `Result` |
| `Text` | text.dfy | decimal printing and parsing, `split`, `partition`, `strip`, `rstrip` |
| `Python` | python.dfy | Python values (None, bool, int, str, list, dict), truthiness, subscripting, `json.loads` over a codec taken as a parameter |
| `Levels` | levels.dfy | `RunArgs._expand`: the log-level mini-language |
| `LevelsProperties` | levels_properties.dfy | laws of `_expand` |
| `RunArguments` | runargs.dfy | `RunArgs`: constructor, getters, `dump`, `update` |
| `RunArgumentsProperties` | runargs_properties.dfy | laws of `RunArgs` |
| `Core` | core.dfy | `core.Command`, `core.CommandResult`, `core.AgentID`, Go's `int`/`uint` conversions, `fmt.Errorf("%s: %v")` |
| `Broker` | broker.dfy | the Redis lists and hashes the system uses: `LPUSH`, `RPUSH`, `LPOP`, `HSET` |
| `RedisData` | redisdata.dfy | the `redisdata` package |
| `AgentData` | agentdata.dfy | the agent table, as a class |
| `Controller` | controller.dfy | `readSingleCmd`, `processInternalCommand`, `In` |
| `AcClient` | acclient.dfy | `Client`, `BaseCmd` and `Cmd` as classes over a `Broker.Store` |
| `Legacy` | legacy.dfy | `_process_result` and `executeJumpscript` |
| `Startup` | startup.dfy | `results_or_die`, `get_url`, the configuration reconciliation and the post/restart step |

Code that computes values is modelled as functions and lemmas. Code that
changes state is modelled as methods, each proved against a specification
function:

- the level loop of `_expand`;
- `dump`, `update` and the constructor of `RunArgs`;
- the client classes;
- the agent table;
- the controller's bookkeeping;
- the reconciliation of the Syncthing configuration.

Inputs the source gets from outside become parameters:

- the JSON codec;
- `uuid4`;
- the clock;
- `rand.Intn`;
- `getActiveAgents`, which is an unimplemented `TODO` in `main.go`;
- the internal handlers;
- redigo's text of a command;
- the store's errors;
- the HTTP responses.

Three facts about the code shape the model:

- The level set is `range(13) + range(20, 24) + [30]`
  (client/acclient.py:17).
- A range's upper bound is clamped to 30 before the range is taken, so
  `"25-40"` yields only level 30 (`LevelsProperties.ExpandOfClampedRange`).
- The Python client pushes onto `cmds_queue` and waits on
  `cmds_queue_<id>`. The Go side reads `cmds.queue` and names result lists
  `cmd.<id>.<gid>.<nid>`. Each side is modelled with its own names.

## Model

| member | source | states |
|---|---|---|
| Text.Split | client/acclient.py:57 | `str.split(',')` gives at least one piece and no piece holds the separator |
| Text.SplitJoin | client/acclient.py:57 | splitting the join of separator-free pieces gives the pieces back |
| Text.JoinSplit | client/acclient.py:57 | joining the pieces of a split gives the text back |
| Text.SplitOfJoined | client/acclient.py:57 | a text cut at its first separator splits into the first piece followed by the split of the rest |
| Text.Partition | client/acclient.py:58 | `partition('-')` gives the text before the first dash and the text after it, or the whole text and "" when there is no dash |
| Text.StripMeaning | client/acclient.py:59-60 | `strip()` gives a slice of the text with only whitespace cut at both ends, and the slice neither starts nor ends with whitespace |
| Text.TrimLeftMeaning | client/acclient.py:59-60 | the left trim cuts a run of whitespace off the front and nothing else |
| Text.TrimRightMeaning | client/acclient.py:59-60 | the right trim cuts a run of whitespace off the back and nothing else |
| Text.DecimalRoundTrip | client/acclient.py:66-67 | the decimal text of n is all digits and `int()` of it is n |
| Text.DecimalInjective | client/acclient.py:66-67 | distinct naturals print differently |
| Text.DigitChar | client/acclient.py:66 | the digit character of d < 10 is a digit whose value is d |
| Text.IntDecimalSign | redisdata/redisdata.go:26 | Go's `%d` of an int is non-empty and starts with '-' exactly for negatives |
| Text.IntDecimalInjective | redisdata/redisdata.go:26 | distinct ints give distinct `%d` texts |
| Text.IntDecimalAlphabet | redisdata/redisdata.go:26 | a `%d` text holds only digits and a leading '-' |
| Text.RStripChar | handlers/startup.py:20 | `rstrip('/')` removes the trailing slashes, all of them and nothing else |
| Python.GetItem | handlers/startup.py:12-16 | `d[key]` succeeds exactly on a dict holding the key and gives its value; a dict without the key raises KeyError(key) |
| Python.Loads | client/acclient.py:170 | `json.loads` of a text the codec decodes gives that value; a success needs a text |
| Levels.ListLevels | client/acclient.py:54 | `set(l).intersection(LEVELS)` for a list, with Python's `True == 1` (`EqualsInt`); its members and order are stated by LevelsProperties.ListLevelsOfInts and ExpandOfInts |
| Levels.PartLevels | client/acclient.py:58-79 | the levels of one comma part or its AssertionError; stated case by case by LevelsProperties.PartOfNumber, PartOfRange, PartOfOpenRange, PartWithBadLower, PartWithBadUpper and PartOfStar |
| Levels.ExpandSpec | client/acclient.py:48-80 | what `_expand` returns or raises for every input; LevelsProperties.ExpandWithinLevels, TextFailure, TextMembers and ReExpand state its range, its errors, its members and its round trip |
| Levels.Ascending | client/acclient.py:54 | `list(set)` holds exactly the set's members in range, strictly ascending |
| Levels.Range | client/acclient.py:76 | `range(lower, upper + 1)` holds exactly lower..upper |
| Levels.FirstUnhashable | client/acclient.py:54 | `set(l)` raises on the first list or dict element, and only when one exists |
| Levels.UnionStep | client/acclient.py:56-79 | one loop step: a raising part ends the loop with its error, and a succeeding part adds its levels |
| Levels.UnionPrefixFailure | client/acclient.py:56-79 | once a part raises, the later parts do not matter |
| Levels.ExpandPart | client/acclient.py:58-79 | the loop body for one comma part computes that part's levels or its error |
| Levels.ExpandParts | client/acclient.py:56-79 | the loop over the comma parts computes the union of their levels, stopping at the first raising part |
| Levels.ExpandText | client/acclient.py:55-80 | the text branch of `_expand` computes the specification of `_expand` on that text |
| Levels.Expand | client/acclient.py:48-80 | `_expand` computes its specification: None gives None, a list is intersected with LEVELS, a text is parsed |
| LevelsProperties.ExpandWithinLevels | client/acclient.py:48-80 | what `_expand` returns lists distinct members of LEVELS, ascending |
| LevelsProperties.AscendingUnique | client/acclient.py:80 | the ascending listing of a set is the only ascending listing of it |
| LevelsProperties.AsListOfAscending | client/acclient.py:80 | listing the members of an ascending level list gives that list |
| LevelsProperties.IncreasingLength | client/acclient.py:80 | an increasing list inside [lo, hi) has at most hi - lo elements |
| LevelsProperties.PartOfNumber | client/acclient.py:79 | a comma part that is a plain number adds that number |
| LevelsProperties.PartitionAt | client/acclient.py:58 | a text partitions at its first dash |
| LevelsProperties.PartOfRange | client/acclient.py:69-76 | "a-b" adds the inclusive range a..b, with b clamped to 30 first |
| LevelsProperties.PartOfOpenRange | client/acclient.py:66-79 | "a-", with an empty upper bound, adds just a |
| LevelsProperties.PartWithBadLower | client/acclient.py:66 | a lower half that is not all digits and not "*" raises the assertion naming it |
| LevelsProperties.PartWithBadUpper | client/acclient.py:71 | a non-empty upper half that is not all digits raises the assertion naming it |
| LevelsProperties.PartOfStar | client/acclient.py:62-64 | a lower half that strips to "*" adds every level, whatever follows the dash |
| LevelsProperties.UnionSuccess | client/acclient.py:56-79 | the loop succeeds exactly when every comma part does |
| LevelsProperties.UnionMembers | client/acclient.py:56-79 | on success a level is in the union exactly when some part adds it |
| LevelsProperties.UnionFirstError | client/acclient.py:56-79 | on failure the error is that of the first raising part |
| LevelsProperties.TextFailure | client/acclient.py:55-80 | a text spec raises exactly when one of its comma parts does |
| LevelsProperties.TextFirstError | client/acclient.py:55-80 | a raising text spec raises the error of its first raising comma part |
| LevelsProperties.TextMembers | client/acclient.py:55-80 | otherwise a level is in the result exactly when it is in LEVELS and some part adds it |
| LevelsProperties.DecimalHasNoComma | client/acclient.py:57-58 | a printed number holds neither ',' nor '-' |
| LevelsProperties.LevelsMembership | client/acclient.py:17 | LEVELS is exactly 0..12, 20..23 and 30 |
| LevelsProperties.TextOfOnePart | client/acclient.py:57 | a text without commas is a single part |
| LevelsProperties.ExpandOfText | client/acclient.py:80 | a text's levels are intersected with LEVELS and listed ascending |
| LevelsProperties.ExpandOfNumber | client/acclient.py:66-80 | a plain number gives that level, or nothing when it is not a level |
| LevelsProperties.SingletonLevels | client/acclient.py:80 | a single number meets LEVELS in itself or in nothing |
| LevelsProperties.ExpandOfRange | client/acclient.py:69-80 | "a-b" gives the levels from a to b, with b clamped to 30 first |
| LevelsProperties.ExpandOfClampedRange | client/acclient.py:73-76 | any range from 24..30 up to 30 or beyond, "25-40" among them, gives only level 30 |
| LevelsProperties.TopRangeLevels | client/acclient.py:73-80 | the levels between 24..30 and 30 are just 30 |
| LevelsProperties.ExpandOfWildcard | client/acclient.py:62-64 | the default "*" gives every level |
| LevelsProperties.ExpandOfStar | client/acclient.py:62-64 | a single part whose lower half strips to "*" gives every level |
| LevelsProperties.AllLevelsMeet | client/acclient.py:80 | LEVELS meets itself in every level |
| LevelsProperties.AllLevels | client/acclient.py:17 | the levels in ascending order are 0..12, 20..23, 30 |
| LevelsProperties.ListLevelsOfInts | client/acclient.py:54 | a list of levels is hashable and its set holds exactly its elements |
| LevelsProperties.ReExpand | client/acclient.py:48-80 | expanding a list `_expand` produced gives the same list back |
| LevelsProperties.ExpandOfInts | client/acclient.py:52-54 | an ascending list of levels expands to itself |
| LevelsProperties.UnionOfSingletons | client/acclient.py:56-79 | a text made of plain numbers yields exactly those numbers |
| LevelsProperties.PrintedRoundTrip | client/acclient.py:55-80 | the comma-joined printing of a non-empty ascending level list parses back to that list |
| LevelsProperties.NaturalsAsList | client/acclient.py:80 | a set of ascending levels is listed back in their order |
| RunArguments.KeyInjective | client/acclient.py:124-125 | distinct fields have distinct names |
| RunArguments.FieldOf | client/acclient.py:21-23 | the field named by a keyword has that name |
| RunArguments.FieldOfKey | client/acclient.py:21-23 | a field's name names that field back |
| RunArguments.LevelList | client/acclient.py:110-120 | the level getters give the stored list, and [] for None |
| RunArguments.Attr | client/acclient.py:82-120 | a getter returns the stored value; `args` gives [] when falsy; the level getters give the list or [] |
| RunArguments.Dump | client/acclient.py:122-129 | the loop over the field names computes the dump's specification |
| RunArguments.DumpSpec | client/acclient.py:122-129 | the dict `dump()` builds from the truthy attributes; RunArgumentsProperties.DumpMeaning states which keys it holds and their values |
| RunArguments.ConstructSpec | client/acclient.py:21-46 | the outcome of `RunArgs(**kwargs)`; RunArgumentsProperties.ConstructValid, ConstructFields and ConstructUnknownKeyword state its fields and its TypeError |
| RunArguments.Merged | client/acclient.py:132-142 | the keyword dict `update` passes on: the dump overlaid by another RunArgs' dump or a dict, ValueError for any other type; RunArgumentsProperties.LookupMerge and MergedKeys state each key's value |
| RunArguments.UpdateSpec | client/acclient.py:131-143 | the RunArgs `update` returns; RunArgumentsProperties.UpdateWithRunArgs, UpdateWithDict, UpdateWithDictKeeps, UpdateWithNone, UpdateWithOther and UpdateIsConstruct state its cases |
| RunArguments.New | client/acclient.py:21-46 | the constructor computes its specification: unknown keywords raise TypeError and the level specs are expanded |
| RunArguments.Update | client/acclient.py:131-143 | `update` computes its specification: the base dump merged with the overlay's data, then constructed |
| RunArgumentsProperties.InOrder | client/acclient.py:124-125 | `dump` visits every field |
| RunArgumentsProperties.DumpOfMeaning | client/acclient.py:122-129 | a field is dumped exactly when it is visited and truthy, with its getter's value |
| RunArgumentsProperties.DumpOfKeys | client/acclient.py:122-129 | every dumped key names a field |
| RunArgumentsProperties.DumpMeaning | client/acclient.py:122-129 | `dump()` holds exactly the truthy fields, each under its own name, and nothing else |
| RunArgumentsProperties.DumpMaxTime | client/acclient.py:122-129 | `max_time = -1` is dumped and `max_time = 0` is not |
| RunArgumentsProperties.ExpandOfDefault | client/acclient.py:21-46 | each level field's default expands |
| RunArgumentsProperties.ExpandOfAttr | client/acclient.py:110-120 | a truthy level getter expands back to the stored list |
| RunArgumentsProperties.ConstructValid | client/acclient.py:21-46 | every construction that succeeds holds ascending level lists |
| RunArgumentsProperties.ConstructUnknownKeyword | client/acclient.py:21-23 | an unknown keyword raises TypeError |
| RunArgumentsProperties.ConstructFields | client/acclient.py:21-46 | with known keywords, construction succeeds exactly when the three level specs expand; every field is then its keyword's value, expanded for levels, or its default |
| RunArgumentsProperties.LookupMerge | client/acclient.py:131-143 | a field of the merged dumps is the overlay's value when truthy, else the base's when truthy, else the default |
| RunArgumentsProperties.ExpandOfPick | client/acclient.py:131-143 | that merged level value expands to the matching merged level list |
| RunArgumentsProperties.MergedKeys | client/acclient.py:142-143 | merging known keys into a dump gives known keys only |
| RunArgumentsProperties.UpdateWithRunArgs | client/acclient.py:131-143 | `update(o)` for a RunArgs o succeeds; each field takes o's truthy value, else the base's truthy value, else the default |
| RunArgumentsProperties.UpdateIsConstruct | client/acclient.py:142-143 | `update` with a usable overlay is the constructor applied to the merge |
| RunArgumentsProperties.EmptyMerge | client/acclient.py:137-142 | merging an empty dict changes nothing |
| RunArgumentsProperties.UpdateWithNone | client/acclient.py:137-143 | `update(None)` keeps every truthy field and resets every falsy one to its default |
| RunArgumentsProperties.ExpandOfDump | client/acclient.py:122-129 | a dumped level field expands to the stored levels when not empty, and to the default otherwise |
| RunArgumentsProperties.DumpedLevelExpands | client/acclient.py:122-129 | a dumped level field of a valid RunArgs always expands |
| RunArgumentsProperties.MergedLevelsExpand | client/acclient.py:142-143 | a merged level field expands when the overlay's own level spec does |
| RunArgumentsProperties.UpdateWithDict | client/acclient.py:135-143 | `update(d)` with known keys whose level specs expand succeeds, and every key of d overrides, falsy values included |
| RunArgumentsProperties.UpdateWithDictKeeps | client/acclient.py:135-143 | with the same dict, every field outside d keeps the base's truthy value or falls back to its constructor default (a level field to its default levels) |
| RunArgumentsProperties.UpdateWithUnknownKey | client/acclient.py:142-143 | `update(d)` with a key that is no field raises TypeError |
| RunArgumentsProperties.UpdateWithOther | client/acclient.py:139-140 | `update(x)` for anything but a RunArgs, a dict or None raises ValueError('Expecting RunArgs or dict') |
| RunArgumentsProperties.UpdateResetsMaxTime | client/acclient.py:131-143 | `update({'max_time': 0})` resets max_time, so the next dump drops it |
| RunArgumentsProperties.ConstructPlain | client/acclient.py:21-46 | without level keywords, construction stores each keyword or its default and every level field's default |
| RunArgumentsProperties.ConstructNameArgs | client/acclient.py:21-46 | keywords among name and args give the defaults with those two |
| RunArgumentsProperties.LookupOutside | client/acclient.py:21-23 | a field without a keyword takes its default |
| RunArgumentsProperties.ConstructDefault | client/acclient.py:21-46 | `RunArgs()` succeeds with every default |
| Core.ToUint | main.go:212 | Go's `uint(i)` keeps the bits: below 2^64, equal modulo 2^64, and i itself when 0 <= i < 2^64 |
| Core.ToInt | redisdata/others.go:17-18 | Go's `int(u)` keeps the bits: a signed 64-bit value equal to u modulo 2^64 |
| Core.IntUintRoundTrip | redisdata/others.go:17-18 | a signed 64-bit id survives the trip through `uint` and back |
| Core.Errorf | redisdata/others.go:33 | `fmt.Errorf("%s: %v")` is the prefix, ": ", then the error text |
| Broker.LPushed | client/acclient.py:308 | LPUSH puts the value at the head of that list and changes no other list |
| Broker.RPushed | redisdata/others.go:49 | RPUSH puts the value at the tail of that list and changes no other list |
| Broker.HSetted | redisdata/others.go:29-30 | HSET sets that field of that hash and changes no other hash |
| Broker.Store.LPush | client/acclient.py:308 | the store's lists become LPushed of the old ones, and its hashes are unchanged |
| Broker.Store.RPush | redisdata/corecommandstorage.go:14 | the store's lists become RPushed of the old ones, and its hashes are unchanged |
| Broker.Store.LPop | redisdata/coreincoming.go:17 | an empty list gives nothing and changes nothing; otherwise the head is removed and returned |
| Broker.Store.HSet | redisdata/others.go:29-30 | the store's hashes become HSetted of the old ones, and its lists are unchanged |
| RedisData.CmdQueuedKey | redisdata/redisdata.go:25 | `cmd.%s.queued` of a command id; RedisData.KeysDisjoint states that it never names another key family |
| RedisData.AgentResponseKey | redisdata/redisdata.go:26 | `cmd.%s.%d.%d` of a command id and an agent's ids; RedisData.KeysDisjoint states that it never names another key family |
| RedisData.ResultsHashKey | redisdata/redisdata.go:27 | `jobresult:%s` of a command id; RedisData.KeysDisjoint states that it never names another key family |
| RedisData.AgentQueue | redisdata/redisdata.go:30-32 | `cmds:%d:%d` of an agent's ids; RedisData.AgentQueueInjective states one queue per agent and KeysDisjoint that it is apart from the other key families |
| RedisData.AgentResultQueue | redisdata/others.go:39-41 | the response list of a result's command and agent, the same format as main.go's own getAgentResultQueue (main.go:93-95); RedisData.PlaceholderResultQueue states the list a placeholder names |
| RedisData.AgentField | redisdata/others.go:30 | the `%d:%d` hash field of an agent; RedisData.AgentFieldInjective and SplitPair state that it names one agent and splits back into its ids |
| RedisData.AgentFieldInjective | redisdata/others.go:30 | distinct agents have distinct `gid:nid` fields in a results hash |
| RedisData.AgentQueueInjective | redisdata/redisdata.go:30-32 | distinct agents have distinct queues |
| RedisData.SplitPair | redisdata/others.go:30 | a `gid:nid` field splits back into gid and nid |
| RedisData.DecimalHasNoColon | redisdata/redisdata.go:31 | a printed id holds no ':' |
| RedisData.KeysDisjoint | redisdata/redisdata.go:23-32 | the dispatch queue, an agent queue, a queued signal and the job log are four different lists |
| RedisData.Placeholder | redisdata/others.go:15-21 | the placeholder carries the command's id, state QUEUED, no data, and the agent's own gid and nid |
| RedisData.PlaceholderIgnoresCommandAddress | redisdata/others.go:15-21 | the placeholder's address comes from the agent, never from the command |
| RedisData.PlaceholderResultQueue | redisdata/others.go:39-41 | for ids that fit a signed int, the placeholder names the list `cmd.<id>.<gid>.<nid>` the agent answers on |
| RedisData.RespondToCommandAsJustQueued | redisdata/others.go:10-37 | HSET `jobresult:<id>` `<gid>:<nid>` to the encoded placeholder; a store failure is returned as "Redis error: ..." and writes nothing |
| RedisData.SignalCommandAsQueued | redisdata/others.go:45-55 | RPUSH "queued" onto `cmd.<id>.queued`; a store failure is returned as "Redis error: ..." and writes nothing |
| RedisData.IsCommandFormatError | redisdata/coreincoming.go:39-41 | an error's text starts with the format-error prefix; RedisData.ErrorClassification states which wrapped errors it accepts |
| RedisData.ErrorClassification | redisdata/coreincoming.go:39-41 | a wrapped format error is a format error, and a wrapped store error is not |
| RedisData.AfterReceive | redisdata/coreincoming.go:17 | the head of the dispatch queue is gone whenever the BLPOP returned an item, and no other list changes |
| RedisData.ReceiveOutcome | redisdata/coreincoming.go:12-36 | the command and error ReceiveCommand returns for the queue's head, the BLPOP's fault and the decoder; RedisData.ReceiveCases and ReceiveErrorsAreFormatErrors state its cases |
| RedisData.ReceiveCommand | redisdata/coreincoming.go:12-36 | the method gives RedisData.ReceiveOutcome's command and error, and leaves the lists as AfterReceive says |
| RedisData.ReceiveErrorsAreFormatErrors | redisdata/coreincoming.go:18-34 | every error ReceiveCommand returns is a "Command format error" |
| RedisData.ReceiveCases | redisdata/coreincoming.go:12-36 | never a command and an error together; neither exactly after a timeout or an empty queue; a command exactly when the head decodes, and then the decoded one |
| AgentData.RolesOf | agentdata/agentdata.go:21-34 | an agent's roles are present exactly when it is in the table |
| AgentData.AgentTable.constructor | agentdata/agentdata.go:90-95 | a new table is empty |
| AgentData.AgentTable.SetRoles | agentdata/agentdata.go:12-19 | the agent's roles are replaced and nothing else changes |
| AgentData.AgentTable.GetRoles | agentdata/agentdata.go:21-34 | gives the agent's roles, or nil when the agent is absent |
| AgentData.AgentTable.DropAgent | agentdata/agentdata.go:36-44 | the agent is removed and nothing else changes |
| AgentData.AgentTable.ConnectedAgents | agentdata/agentdata.go:46-56 | every agent in the table, each just once |
| AgentData.AgentTable.HasRole | agentdata/agentdata.go:58-75 | true exactly when the agent is in the table with that role |
| AgentData.AgentTable.IsConnected | agentdata/agentdata.go:77-88 | true exactly when the agent is in the table, an empty role list included |
| AgentData.GetAfterSet | agentdata/agentdata.go:12-34 | the table gives back what was last set for an agent and leaves the others alone |
| AgentData.GetAfterDrop | agentdata/agentdata.go:21-44 | dropping forgets that agent and nobody else, and dropping an absent agent changes nothing |
| Controller.In | main.go:271-279 | true exactly when x is in l |
| Controller.ErrorResult | main.go:187-194 | an ERROR record with the command's id, gid and nid and the given text |
| Controller.Route | main.go:180-227 | the records a command is pushed as and the queues they go to; its cases are stated by Controller.RouteCases |
| Controller.RouteCases | main.go:182-227 | internal commands are not routed; a role command goes to every active agent (fanout) or to one of them, or gets one ERROR when none is active; a gid/nid command goes to that agent when connected and gets one ERROR otherwise; never both an error and a target |
| Controller.PushedAsWritten | main.go:180-226 | the `ids` list as written: AgentID values from the role branches, `[]int{gid, nid}` from the gid/nid branch; Controller.RoleDispatchPanics and PairDispatchAgrees state what the dispatch loop makes of them |
| Controller.AssertedAgentAsWritten | main.go:237-242 | the `e.Value.([]int)` assertion and the AgentID built from it, a panic for anything but an `[]int`; stated by Controller.RoleDispatchPanics and PairDispatchAgrees |
| Controller.PairDispatchAgrees | main.go:225-242 | as written, a gid/nid command's pushed `[]int` pairs pass the type assertion and name the agents Route chooses |
| Controller.RoleDispatchPanics | main.go:198-237 | as written, a role-routed command with an active agent pushes an AgentID and then fails the `[]int` assertion |
| Controller.InternalResultAsWritten | main.go:123-148 | the record processInternalCommand pushes as the code is written; Controller.MarshalErrorReportedAsSuccess exhibits its marshal-error case |
| Controller.MarshalErrorReportedAsSuccess | main.go:138-144 | as written, a handler value that cannot be marshalled is reported as SUCCESS with no data |
| Controller.InternalResult | main.go:123-148 | the corrected record; its cases are stated by Controller.InternalResultCases and its agreement with the code by InternalResultAgrees |
| Controller.InternalResultCases | main.go:123-148 | the corrected record echoes the command's address; an unknown name gives UNKNOWN_CMD; any error gives ERROR with its text; SUCCESS at level 20 exactly when the value was serialized, with that text |
| Controller.InternalResultAgrees | main.go:132-148 | the corrected record differs from the one as written only on a marshal error |
| Controller.ReceivedStepAsWritten | main.go:163-173 | one readSingleCmd step as the code is written; Controller.TimeoutCrashesAsWritten exhibits the nil dereference on a timeout |
| Controller.FatalMessage | main.go:164-171 | log.Fatal's text for a receive error, with the `%v` kept as Print leaves it; Controller.ReceivedStepCases states the text readSingleCmd exits with |
| Controller.TimeoutCrashesAsWritten | main.go:163-173 | as written, the BLPOP timeout on an empty dispatch queue dereferences a nil command |
| Controller.ReceivedStep | main.go:163-173 | the corrected step; its cases are stated by Controller.ReceivedStepCases |
| Controller.ReceivedStepCases | main.go:163-176 | once the timeout is handled, readSingleCmd never panics; it exits exactly on an error, and always as "Incoming command id malformed" |
| Controller.Queued | main.go:235-247 | the lists after one RPUSH of the payload onto each target's queue, in order; stated by Controller.QueuedMeaning |
| Controller.Placed | main.go:249-252 | the hashes after one QUEUED placeholder per target; stated by Controller.PlacedMeaning |
| Controller.Dispatched | main.go:229-256 | the lists after the command is logged, queued for each target and signalled; stated by Controller.DispatchedMeaning |
| Controller.QueuedMeaning | main.go:235-254 | with distinct targets, each target's queue gains the command once at its tail and no other list changes |
| Controller.PlacedMeaning | main.go:235-254 | with distinct targets, the results hash gains one placeholder field per target and nothing else changes |
| Controller.DispatchedMeaning | main.go:229-256 | a routed command is logged once at the head of the job log, queued once per target, and signalled once; no other list changes |
| Controller.Controller.constructor | main.go:85-90 | the controller holds its store and agent table and starts with no result sent |
| Controller.Controller.ProcessInternalCommand | main.go:123-152 | sends the corrected internal result and signals the command as queued |
| Controller.Controller.RouteCommand | main.go:180-227 | sends Route's error results and returns its targets |
| Controller.Controller.Dispatch | main.go:229-256 | leaves the lists as Dispatched and the hashes as Placed say |
| Controller.Controller.ReadSingleCmd | main.go:161-258 | the step is the corrected ReceivedStep; without a command only the receive happens; an internal command is processed; any other is routed, logged, queued, given placeholders and signalled |
| AcClient.CmdId | client/acclient.py:303 | `id or str(uuid4())`: the caller's id when truthy, else the fresh id, a parameter of the model |
| AcClient.CmdDump | client/acclient.py:210-218 | the dict `Cmd.dump()` builds; AcClient.CmdDumpMeaning states its keys and values |
| AcClient.CmdDumpMeaning | client/acclient.py:210-218 | a command's dump has exactly id, gid, nid, cmd, args (the RunArgs dump) and data; data is "" exactly for None and otherwise decodes back |
| AcClient.ResultQueue | client/acclient.py:169 | the `cmds_queue_<id>` list a command's result arrives on; AcClient.FetchOnce states that get_result pops only that list |
| AcClient.FetchSpec | client/acclient.py:167-172 | the outcome and new cache of one `get_result`; AcClient.FetchOnce and FetchDecodes state its cases |
| AcClient.FetchOnce | client/acclient.py:167-172 | without a cached result, one BLPOP on `cmds_queue_<id>` pops and decodes the head; a result other than None is cached and further calls return it without popping |
| AcClient.FetchDecodes | client/acclient.py:167-172 | a result the agent pushed as JSON comes back as the value it encoded |
| AcClient.StatsOf | client/acclient.py:180-185 | what `get_stats` returns or raises for a result; stated by AcClient.StatsCases |
| AcClient.StatsCases | client/acclient.py:177-185 | a non-SUCCESS state raises Exception(data); a SUCCESS one decodes the data; no state raises KeyError |
| AcClient.InfoOf | client/acclient.py:387-388 | `json.loads(result['data'])`; stated by AcClient.InfoCases |
| AcClient.InfoCases | client/acclient.py:378-388 | a result without data raises KeyError; otherwise the data is decoded |
| AcClient.Overlay | client/acclient.py:325 | the keywords of `RunArgs(name=executable, args=cmdargs)`; AcClient.ExecuteOverlay and OverlayValid state the RunArgs it builds |
| AcClient.ExecuteArgs | client/acclient.py:322-327 | the RunArgs `execute` sends; AcClient.ExecuteArgsCases, ExecuteUpdates and the ExecuteMerge lemmas state its cases and fields |
| AcClient.ExecuteOverlay | client/acclient.py:325 | the overlay RunArgs holds the executable and cmdargs with every other default |
| AcClient.ExecuteArgsCases | client/acclient.py:322-329 | cmdargs other than None or a list raise ValueError; without caller args, the command runs with the overlay |
| AcClient.OverlayValid | client/acclient.py:325 | the overlay is valid and its loglevels are not empty |
| AcClient.ExecuteUpdates | client/acclient.py:326-327 | with caller args, those args are updated with the overlay |
| AcClient.ExecuteMergeField | client/acclient.py:325-327 | a plain field takes the overlay's truthy value, else the caller's truthy value, else the default |
| AcClient.ExecuteMergePlain | client/acclient.py:325-327 | the executable and a non-empty cmdargs replace the caller's; the caller's other truthy fields survive |
| AcClient.ExecuteMergeLevels | client/acclient.py:325-327 | the overlay's default loglevels replace the caller's; the caller's db and ac levels survive, an empty list becoming None |
| AcClient.Client.constructor | client/acclient.py:286-291 | the client holds its store |
| AcClient.Client.Cmd | client/acclient.py:293-309 | run arguments that are not a RunArgs raise ValueError and push nothing; otherwise a new Cmd for the id (or the fresh one) is returned and its JSON dump is pushed onto the head of `cmds_queue` |
| AcClient.Client.Execute | client/acclient.py:311-329 | raises what the argument checks raise, pushing nothing; otherwise sends `execute` with the merged run arguments |
| AcClient.Client.GetById | client/acclient.py:331-335 | a new descriptor for the id and address with no cached result |
| AcClient.Client.GetProcesses | client/acclient.py:378-388 | pushes `get_processes_stats` with the domain/name filter, waits once, and decodes the data of the result |
| AcClient.BaseCmd.constructor | client/acclient.py:147-153 | a descriptor with its id and address and no cached result |
| AcClient.BaseCmd.GetResult | client/acclient.py:167-172 | the result, cache and lists are those of the fetch specification |
| AcClient.BaseCmd.Kill | client/acclient.py:174-175 | pushes a `kill` command whose data names this command's id |
| AcClient.BaseCmd.GetStats | client/acclient.py:177-185 | pushes `get_process_stats` for this id, waits once, and checks the state of the result |
| AcClient.Cmd.constructor | client/acclient.py:193-196 | the command holds its descriptor, name, run arguments and data |
| AcClient.Payload | client/acclient.py:307-308 | the JSON text of a command's dump that Client.cmd pushes; AcClient.Cmd.DumpIsPayload ties it to Cmd.dump(), whose contents AcClient.CmdDumpMeaning states |
| AcClient.Cmd.Dump | client/acclient.py:210-218 | the dump of this command's fields; AcClient.Cmd.DumpIsPayload ties it to the pushed text |
| AcClient.Cmd.DumpIsPayload | client/acclient.py:305-308 | the JSON of a command's dump is exactly what Client.cmd pushes |
| AcClient.NewCmd | client/acclient.py:189-196 | run arguments that are not a RunArgs raise ValueError('Invalid arguments'); otherwise a new Cmd describing the arguments |
| Legacy.Attribute | client/acclient_ext/legacyclient.py:36-37 | `getattr(result, key)` for nid, gid and id; Legacy.CopyAttributes states the copied values |
| Legacy.ReportedState | client/acclient_ext/legacyclient.py:27-29 | the state is 'OK' exactly for 'SUCCESS' and 'OK'; any other state is kept |
| Legacy.ProcessResult | client/acclient_ext/legacyclient.py:25-38 | succeeds unless a level-20 result fails to decode, and then raises the decoder's error; the dict has exactly state, result, nid, gid and id; the result is the decoded data at level 20 and the raw data otherwise |
| Legacy.CopyAttributes | client/acclient_ext/legacyclient.py:36-37 | nid, gid and id are copied from the result and no other key changes |
| Legacy.JsonResultRoundTrip | client/acclient_ext/legacyclient.py:31-32 | a level-20 result reports the value the agent encoded |
| Legacy.QueueIsNotAKeyword | client/acclient_ext/legacyclient.py:45-50 | `queue` is not a RunArgs keyword |
| Legacy.ExecuteJumpscript | client/acclient_ext/legacyclient.py:40-50 | a truthy `all` raises NotImplementedError; otherwise building the run arguments raises TypeError, so no call gets further |
| Startup.ResultsOrDie | handlers/startup.py:11-16 | succeeds exactly for a SUCCESS result at level 20 whose data decodes, and then gives the decoded data |
| Startup.ResultsOrDieReportsFailure | handlers/startup.py:12-13 | a failed result raises the Exception naming its cmd, its name and its data |
| Startup.ResultsOrDieNeedsJson | handlers/startup.py:14 | a successful result of another level fails the assertion |
| Startup.ResultsOrDieRoundTrip | handlers/startup.py:11-16 | the handler gets back exactly the value the agent encoded |
| Startup.GetUrl | handlers/startup.py:19-21 | the url ends with the endpoint, and what precedes it is the base without its trailing slashes |
| Startup.GetUrlSlash | handlers/startup.py:20 | a trailing slash on the base gives the same url |
| Startup.GetUrlPlain | handlers/startup.py:19-21 | a base without a trailing slash is kept whole |
| Startup.FilterPositions | handlers/startup.py:59 | every kept position is a position of the list |
| Startup.FilterSucceeds | handlers/startup.py:59 | the filter raises exactly when some item lacks the key, with the error of the first such item |
| Startup.FilterKeeps | handlers/startup.py:59 | the filter keeps exactly the matching positions, in order |
| Startup.FirstKept | handlers/startup.py:81 | `folders[0]` is the first matching folder |
| Startup.FilterSameKeys | handlers/startup.py:76 | the filter only looks at `item[key]` |
| Startup.FilterAppend | handlers/startup.py:72 | an appended matching item is kept after the others |
| Startup.DeviceRecord | handlers/startup.py:63-70 | the new device record carries the agent's device id |
| Startup.ShareEntry | handlers/startup.py:85-87 | the new share entry carries the agent's device id |
| Startup.AddDevice | handlers/startup.py:59-73 | the device list after the device step and whether it changed; stated by Startup.AddDeviceMeaning and AddDeviceIdempotent |
| Startup.ShareFolder | handlers/startup.py:76-88 | the folder list after the sharing step, whether it changed, or its exception; stated by Startup.ShareFolderMissing, ShareFolderMeaning and ShareFolderIdempotent |
| Startup.ReconcileSpec | handlers/startup.py:59-91 | the devices, folders and dirty flag the handler leaves, or the exception part-way; stated by Startup.ReconcileIdempotent and by Startup.SyncthingConfig.Reconcile |
| Startup.AddDeviceMeaning | handlers/startup.py:59-73 | with no device of the agent's id, the record is appended and the config is dirty; otherwise nothing changes |
| Startup.ShareFolderMissing | handlers/startup.py:76-79 | without the shared folder the handler raises "No folder with id ... found" |
| Startup.ShareFolderMeaning | handlers/startup.py:81-88 | the first folder with the id gets the agent's device appended exactly when its device list lacks it |
| Startup.AddDeviceIdempotent | handlers/startup.py:59-73 | adding the device twice adds it once |
| Startup.ShareFolderIdempotent | handlers/startup.py:76-88 | sharing the folder twice shares it once |
| Startup.ReconcileIdempotent | handlers/startup.py:59-91 | a second reconciliation on the first one's result changes nothing and leaves the configuration clean |
| Startup.SyncthingConfig.constructor | handlers/startup.py:51 | the configuration holds the fetched devices and folders |
| Startup.SyncthingConfig.Reconcile | handlers/startup.py:59-91 | the devices, the folders and the dirty flag (or the error) are those of the reconciliation's specification |
| Startup.SyncthingConfig.AddAgentDevice | handlers/startup.py:59-73 | the device step of the specification, applied to the devices in place |
| Startup.SyncthingConfig.ShareWithAgent | handlers/startup.py:76-88 | the folder step of the specification, applied to the folders in place |
| Startup.Publish | handlers/startup.py:90-99 | nothing is sent when clean; otherwise the config is posted and, only when accepted, a restart is posted; each refusal raises its Exception with the reason |

## Left out

- Redis connections, pools and timeouts are left out. The store is a map of lists and a map of hashes that every operation shares. An empty list at a blocking pop stands for the wait ending with nothing.
- Controller.Controller.constructor: the model assumes one working store. As written, main.go:86-90 build `redisData`, `commandStorage`, `incomingCommands` and `commandLogger` from `pool` while `pool` is still nil. main.go:668 later reassigns only `pool`. This has not been executed, but as written every `pool.Get()` would then be called on a nil `*redis.Pool` and panic. That covers ReceiveCommand (redisdata/coreincoming.go:14), LogCommand, QueueReceivedCommand, RespondToCommandAsJustQueued (redisdata/others.go:12) and SignalCommandAsQueued (redisdata/others.go:46). The model does not capture this. Controller.ReceivedStepCases' "never panics" holds only for a working store.
- AcClient.BaseCmd.GetResult: the `timeout` argument is left out. An empty result list gives the TypeError of unpacking None. In the source that happens only when a positive timeout expires. With the default timeout 0, `get_result()` blocks until a result arrives and never sees None.
- AcClient.Client.GetProcesses and AcClient.BaseCmd.GetStats only find a reply that is already in the store when the call is made. Nothing arrives during the wait, because the agent's side is not modelled.
- Concurrency is left out. `readSingleCmd` starts `processInternalCommand` as a goroutine, and the model runs it in sequence.
- The clock, `uuid4`, `rand.Intn`, the JSON codecs and redigo's formatting of a command are parameters, not models.
- `getActiveAgents` and the `list_agents` handler panic with "TODO" in the source. The active agents and the handlers' outcomes are therefore inputs.
- Controller.Controller.ReadSingleCmd: the writes after the receive are taken to succeed. The source only logs their errors, so the model does not record the log lines.
- Controller.Controller.ReadSingleCmd: `log.Fatal` is modelled as the step `Fatal` with its message. The process exit and the "%v" that `log.Fatal` leaves in the text are not modelled beyond that message.
- `sendResult` (`SetCommandResult`) is modelled as the controller's `sent` log. `core/commandstorage.go` is not part of this model.
- RedisData.RespondToCommandAsJustQueued: the placeholder's JSON encoding is a parameter that cannot fail, so the source's panic on a marshal error is not modelled.
- `main.go` declares its own copy of the key formats (main.go:35-44), and its own `getAgentResultQueue` (main.go:93-95). Both copies agree with `redisdata` (redisdata/redisdata.go:23-28, redisdata/others.go:39-41), so one definition, RedisData.AgentResultQueue, stands for both.
- `BoundClient` (client/acclient.py:221-279) is left out. It forwards to `Client` with its gid and nid, with two differences. It merges its `default_args` into the caller's arguments through `update` (client/acclient.py:228-231). Its `cmd` drops the caller's id and always passes `id=None`, so a fresh id is used (client/acclient.py:235).
- The `get_cpu_info`, `get_disk_info`, `get_mem_info`, `get_nic_info` and `get_os_info` methods are left out as methods. They send a command with default RunArgs and decode the data of its result, which AcClient.InfoCases states through the shared `InfoOf`, and AcClient.Client.GetProcesses shows as a method.
- The `Client` constructor's connection and `ping()` are left out.
- AcClient.Client.Execute: caller `args` are taken to be a RunArgs or None. Any other object would raise from `update` in the source.
- Command ids are strings. `str(uuid4())` and a caller-chosen id are both taken as text.
- Levels.Ascending: Python's `list(set)` order is taken to be ascending. CPython's order is the order of its hash table, and for some sets it is not ascending. `_expand("4,12")` and `_expand([4, 12])` give `[12, 4]` there, because 12 collides with 4 in an 8-slot table. `"7,23"` gives `[23, 7]`. The model's lists can therefore differ in order from CPython's, and LevelsProperties.ExpandOfInts, LevelsProperties.ReExpand and LevelsProperties.PrintedRoundTrip hold in the model's order.
- Python's `True == 1` is modelled only in `_expand`'s list branch (Levels.ListLevels, which compares through `EqualsInt`). Elsewhere, bools and ints are kept apart: the `level == 20` tests of Legacy.ProcessResult and Startup.ResultsOrDie, and the `==` of the start-up handler's filters (Startup.Matches). The value model has no floats, so `20.0 == 20` is not modelled.
- Level specs are byte strings. Only ASCII digits count as digits, and `strip()` cuts only the ASCII whitespace characters. Unicode `isdigit` and `strip` (non-ASCII digits, Unicode whitespace) are not modelled.
- The error messages of Python's own TypeErrors are fixed texts, not CPython's exact wording.
- LegacyClient: the constructor raises `NotImplementedError` (client/acclient_ext/legacyclient.py:7-8). `get_next_result` does not exist on `Cmd`, and `execute` and `waitJumpscript` are left out.
- Legacy.ProcessResult: the result's attributes are a record. `getattr` of a missing attribute is not modelled.
- The start-up handler's HTTP GET, headers, API-key handling, settings lookups and its `client.cmd('sync')` call are left out. The HTTP outcomes of the POST requests are parameters of Startup.Publish.
- Startup.SyncthingConfig.Reconcile: `config['devices']`, `config['folders']` and each folder's `devices` are taken as lists. A folder whose `devices` is not a list raises a fixed error. The device name and the folder id are taken as already formatted text for `%s`.
- Startup.Publish: the arguments of each raised Exception are modelled as a list.
- Startup.Publish: the posted `body` is a parameter standing for `json.dumps(config)`. The model does not tie it to the reconciled configuration, because the JSON codec is not modelled.

## Findings

| source | as written | input that shows it | evidently intended | confidence | as-written member | corrected member |
|---|---|---|---|---|---|---|
| main.go:163-173 | after ReceiveCommand returns no command and no error (a BLPOP timeout), `command.Cmd` is read through a nil pointer | with a working pool (main.go:86-90 build the stores from a nil one), an empty dispatch queue whose BLPOP fails with a "timeout" error | carry on without a command, as the comment at redisdata/coreincoming.go:21 says | not executed | Controller.TimeoutCrashesAsWritten | Controller.ReceivedStepCases |
| main.go:138-144 | a `json.Marshal` error is stored in Data, then overwritten: the result is SUCCESS with empty data at level 20 | an internal handler whose value cannot be marshalled | report ERROR with the marshal error's text | not executed | Controller.MarshalErrorReportedAsSuccess | Controller.InternalResultCases |
| main.go:198-237 | the role branches push `core.AgentID` values onto `ids`, and the dispatch loop asserts every element is an `[]int`, so it panics | a command with roles, once getActiveAgents (main.go:100-103, a `TODO` panic as written) returns an active agent | dispatch to the agents the role branch chose | not executed | Controller.RoleDispatchPanics | Controller.RouteCases |
