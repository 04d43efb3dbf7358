/**
 * The startup handler (handlers/startup.py): it asks the agent for its
 * Syncthing device id, makes sure the local Syncthing configuration lists
 * that device and shares the configured folder with it, and pushes the
 * configuration and restarts Syncthing only when something changed.
 *
 * The settings lookups are parameters (the Syncthing base url, the shared
 * folder id), the HTTP calls are left out except for the requests the handler
 * makes at the end, whose outcomes are parameters.
 */
module Startup {
  import opened Wrappers
  import opened Python
  import opened Text
  import opened Legacy

  const ENDPOINT_CONFIG: string := "/rest/system/config"
  const ENDPOINT_RESTART: string := "/rest/system/restart"

  /** results_or_die: the decoded data of a successful level-20 result. A
      failed result raises the Exception naming the command, its name and its
      data; a successful one of another level fails the assertion. A missing
      key raises KeyError, for the keys in the order the handler reads them. */
  function ResultsOrDie(results: Value, json: Json): (r: Result<Value, PyError>)
    ensures r.Success? <==>
              results.PyDict? && "state" in results.entries && results.entries["state"] == PyStr("SUCCESS") &&
              "level" in results.entries && results.entries["level"] == PyInt(JSON_LEVEL) &&
              "data" in results.entries && Loads(json, results.entries["data"]).Success?
    ensures r.Success? ==> r == Loads(json, results.entries["data"])
  {
    var state :- GetItem(results, "state");
    if state != PyStr("SUCCESS") then
      var cmd :- GetItem(results, "cmd");
      var args :- GetItem(results, "args");
      var name :- GetItem(args, "name");
      var data :- GetItem(results, "data");
      Failure(CmdFailed(cmd, name, data))
    else
      var level :- GetItem(results, "level");
      if level != PyInt(JSON_LEVEL) then Failure(AssertionError("Only json response is supported so far"))
      else
        var data :- GetItem(results, "data");
        Loads(json, data)
  }

  /** A failed result with the keys the message needs raises that message's
      Exception, whatever its level and data. */
  lemma ResultsOrDieReportsFailure(entries: map<string, Value>, json: Json)
    requires "state" in entries && entries["state"] != PyStr("SUCCESS")
    requires "cmd" in entries && "data" in entries
    requires "args" in entries && entries["args"].PyDict? && "name" in entries["args"].entries
    ensures ResultsOrDie(PyDict(entries), json) ==
              Failure(CmdFailed(entries["cmd"], entries["args"].entries["name"], entries["data"]))
  {
  }

  /** A successful result of another level fails the assertion. */
  lemma ResultsOrDieNeedsJson(entries: map<string, Value>, json: Json)
    requires "state" in entries && entries["state"] == PyStr("SUCCESS")
    requires "level" in entries && entries["level"] != PyInt(JSON_LEVEL)
    ensures ResultsOrDie(PyDict(entries), json) == Failure(AssertionError("Only json response is supported so far"))
  {
  }

  /** With a lawful codec, the handler gets back exactly the value the agent
      encoded. */
  lemma ResultsOrDieRoundTrip(json: Json, v: Value, cmd: map<string, Value>)
    requires Lawful(json)
    ensures ResultsOrDie(PyDict(cmd["state" := PyStr("SUCCESS")]["level" := PyInt(JSON_LEVEL)]
                                   ["data" := PyStr(json.dumps(v))]), json) == Success(v)
  {
    JsonResultRoundTrip(json, v);
  }

  /** get_url: the base url without its trailing slashes, then the endpoint. */
  function GetUrl(base: string, endpoint: string): (u: string)
    ensures |endpoint| <= |u| && u[|u| - |endpoint|..] == endpoint
    ensures var b := u[..|u| - |endpoint|];
            |b| <= |base| && base[..|b|] == b && (|b| > 0 ==> b[|b| - 1] != '/') &&
            forall i :: |b| <= i < |base| ==> base[i] == '/'
  {
    var b := RStripChar(base, '/');
    assert (b + endpoint)[..|b|] == b;
    b + endpoint
  }

  /** Any number of trailing slashes on the base url gives the same url. */
  lemma GetUrlSlash(base: string, endpoint: string)
    ensures GetUrl(base + "/", endpoint) == GetUrl(base, endpoint)
  {
    assert (base + "/")[..|base|] == base;
  }

  /** A base url that does not end in a slash is kept whole. */
  lemma GetUrlPlain(base: string, endpoint: string)
    requires |base| == 0 || base[|base| - 1] != '/'
    ensures GetUrl(base, endpoint) == base + endpoint
  {
  }

  /** item[key] can be read. */
  predicate HasKey(item: Value, key: string) {
    item.PyDict? && key in item.entries
  }

  /** The filter lambda `item[key] == want` holds. */
  predicate Matches(item: Value, key: string, want: Value) {
    HasKey(item, key) && item.entries[key] == want
  }

  /** filter(lambda d: d[key] == want, items), as the positions of the items it
      keeps (the kept items are the list's own objects, which the handler then
      changes in place). The lambda runs on every item in order, so the first
      item without the key raises. */
  function FilterPositions(items: seq<Value>, key: string, want: Value): (r: Result<seq<nat>, PyError>)
    ensures r.Success? ==> forall k :: 0 <= k < |r.value| ==> r.value[k] < |items|
    decreases |items|
  {
    if |items| == 0 then Success([])
    else
      var n := |items| - 1;
      var kept :- FilterPositions(items[..n], key, want);
      var v :- GetItem(items[n], key);
      if v == want then Success(kept + [n]) else Success(kept)
  }

  /** The filter raises iff some item lacks the key, and then with the error
      of the first such item. */
  lemma {:induction false} FilterSucceeds(items: seq<Value>, key: string, want: Value)
    ensures FilterPositions(items, key, want).Success? <==> forall i :: 0 <= i < |items| ==> HasKey(items[i], key)
    ensures FilterPositions(items, key, want).Failure? ==>
              exists i :: 0 <= i < |items| && GetItem(items[i], key) == Failure(FilterPositions(items, key, want).error) &&
                          forall j :: 0 <= j < i ==> HasKey(items[j], key)
    decreases |items|
  {
    if |items| > 0 {
      var n := |items| - 1;
      var init := items[..n];
      FilterSucceeds(init, key, want);
      assert forall j :: 0 <= j < n ==> init[j] == items[j];
      if FilterPositions(init, key, want).Failure? {
        var i :| 0 <= i < n && GetItem(init[i], key) == Failure(FilterPositions(init, key, want).error) &&
                 forall j :: 0 <= j < i ==> HasKey(init[j], key);
        assert GetItem(items[i], key) == Failure(FilterPositions(items, key, want).error);
      } else if !HasKey(items[n], key) {
        assert GetItem(items[n], key) == Failure(FilterPositions(items, key, want).error);
      }
    }
  }

  /** The filter keeps exactly the positions whose item matches, in order. */
  lemma {:induction false} FilterKeeps(items: seq<Value>, key: string, want: Value)
    requires FilterPositions(items, key, want).Success?
    ensures var kept := FilterPositions(items, key, want).value;
            forall i :: 0 <= i < |items| ==> (i in kept <==> Matches(items[i], key, want))
    ensures var kept := FilterPositions(items, key, want).value;
            forall k, l :: 0 <= k < l < |kept| ==> kept[k] < kept[l]
    decreases |items|
  {
    if |items| > 0 {
      var n := |items| - 1;
      var init := items[..n];
      FilterKeeps(init, key, want);
      var before := FilterPositions(init, key, want).value;
      var kept := FilterPositions(items, key, want).value;
      assert kept == if Matches(items[n], key, want) then before + [n] else before;
      forall i | 0 <= i < |items|
        ensures i in kept <==> Matches(items[i], key, want)
      {
        if i < n {
          assert init[i] == items[i];
        }
      }
    }
  }

  /** The first kept position is the first matching item. */
  lemma FirstKept(items: seq<Value>, key: string, want: Value)
    requires FilterPositions(items, key, want).Success? && FilterPositions(items, key, want).value != []
    ensures var i := FilterPositions(items, key, want).value[0];
            i < |items| && Matches(items[i], key, want) && forall j :: 0 <= j < i ==> !Matches(items[j], key, want)
  {
    var kept := FilterPositions(items, key, want).value;
    FilterKeeps(items, key, want);
    assert kept[0] in kept;
    forall j | 0 <= j < kept[0]
      ensures j !in kept
    {
      assert forall k :: 0 <= k < |kept| ==> kept[0] <= kept[k];
    }
  }

  /** The filter only looks at item[key]. */
  lemma {:induction false} FilterSameKeys(xs: seq<Value>, ys: seq<Value>, key: string, want: Value)
    requires |xs| == |ys|
    requires forall i :: 0 <= i < |xs| ==> GetItem(xs[i], key) == GetItem(ys[i], key)
    ensures FilterPositions(xs, key, want) == FilterPositions(ys, key, want)
    decreases |xs|
  {
    if |xs| > 0 {
      var n := |xs| - 1;
      FilterSameKeys(xs[..n], ys[..n], key, want);
      assert GetItem(xs[n], key) == GetItem(ys[n], key);
    }
  }

  /** An item appended after the others is kept iff it matches. */
  lemma FilterAppend(items: seq<Value>, item: Value, key: string, want: Value)
    requires FilterPositions(items, key, want).Success? && Matches(item, key, want)
    ensures FilterPositions(items + [item], key, want) == Success(FilterPositions(items, key, want).value + [|items|])
  {
    assert (items + [item])[..|items|] == items;
  }

  /** The record added for the agent's device. */
  function DeviceRecord(agent: Value, name: string): (d: Value)
    ensures Matches(d, "deviceID", agent)
  {
    PyDict(map["addresses" := PyList([PyStr("dynamic")]), "certName" := PyStr(""),
               "compression" := PyStr("metadata"), "deviceID" := agent,
               "introducer" := PyBool(false), "name" := PyStr(name)])
  }

  /** The device name '%s-%s' % (gid, nid). */
  function DeviceName(gid: string, nid: string): string {
    gid + "-" + nid
  }

  /** The entry that shares a folder with the agent's device. */
  function ShareEntry(agent: Value): (d: Value)
    ensures Matches(d, "deviceID", agent)
  {
    PyDict(map["deviceID" := agent])
  }

  /** The error for a configuration without the shared folder. */
  function NoFolder(folderId: string): PyError {
    Exception(PyStr("No folder with id " + folderId + " found"))
  }

  /** Iterating a folder's 'devices' value that is not a list: filter runs the
      lambda on the characters of a string or the keys of a dict, and an empty
      one leaves nothing to filter, so append is what fails. */
  function NotAList(shared: Value): PyError {
    if shared == PyStr("") || shared == PyDict(map[]) then AttributeError("object has no attribute 'append'")
    else TypeError("object is not iterable or not subscriptable by a string")
  }

  /** A list after one step of the reconciliation, and whether it changed. */
  datatype Step = Step(items: seq<Value>, changed: bool)

  /** handlers/startup.py:59-73: the agent's device record is appended iff no device has its
      id. */
  function AddDevice(devices: seq<Value>, agent: Value, name: string): Result<Step, PyError> {
    var present :- FilterPositions(devices, "deviceID", agent);
    if present == [] then Success(Step(devices + [DeviceRecord(agent, name)], true))
    else Success(Step(devices, false))
  }

  /** The folder that shares with one more device. */
  function Shared(folder: Value, shared: seq<Value>, agent: Value): Value
    requires folder.PyDict?
  {
    PyDict(folder.entries["devices" := PyList(shared + [ShareEntry(agent)])])
  }

  /** handlers/startup.py:76-88: the first folder with the id gets the device appended to
      its device list iff the list lacks it; no such folder raises. */
  function ShareFolder(folders: seq<Value>, agent: Value, folderId: string): Result<Step, PyError> {
    var matching :- FilterPositions(folders, "id", PyStr(folderId));
    if matching == [] then Failure(NoFolder(folderId))
    else
      var i := matching[0];
      var folder := folders[i];
      var shared :- GetItem(folder, "devices");
      if !shared.PyList? then Failure(NotAList(shared))
      else
        var has :- FilterPositions(shared.items, "deviceID", agent);
        if has == [] then Success(Step(folders[i := Shared(folder, shared.items, agent)], true))
        else Success(Step(folders, false))
  }

  /** The configuration's devices and folders after reconciling, with the
      dirty flag or the exception raised part-way (a device appended before
      the exception stays). */
  datatype Outcome = Outcome(devices: seq<Value>, folders: seq<Value>, dirty: Result<bool, PyError>)

  /** What the reconciliation leaves behind. */
  function ReconcileSpec(devices: seq<Value>, folders: seq<Value>, agent: Value, name: string, folderId: string): Outcome {
    match AddDevice(devices, agent, name)
    case Failure(e) => Outcome(devices, folders, Failure(e))
    case Success(d) =>
      match ShareFolder(folders, agent, folderId)
      case Failure(e) => Outcome(d.items, folders, Failure(e))
      case Success(f) => Outcome(d.items, f.items, Success(d.changed || f.changed))
  }

  /** The devices: one record is appended, carrying the agent's device id,
      iff no device has that id; the list is otherwise untouched. */
  lemma AddDeviceMeaning(devices: seq<Value>, agent: Value, name: string)
    requires forall i :: 0 <= i < |devices| ==> HasKey(devices[i], "deviceID")
    ensures (forall i :: 0 <= i < |devices| ==> !Matches(devices[i], "deviceID", agent)) ==>
              AddDevice(devices, agent, name) == Success(Step(devices + [DeviceRecord(agent, name)], true))
    ensures (exists i :: 0 <= i < |devices| && Matches(devices[i], "deviceID", agent)) ==>
              AddDevice(devices, agent, name) == Success(Step(devices, false))
  {
    FilterSucceeds(devices, "deviceID", agent);
    FilterKeeps(devices, "deviceID", agent);
    var present := FilterPositions(devices, "deviceID", agent).value;
    if present != [] {
      assert present[0] in present && Matches(devices[present[0]], "deviceID", agent);
    }
  }

  /** Without the shared folder the handler raises. */
  lemma ShareFolderMissing(folders: seq<Value>, agent: Value, folderId: string)
    requires forall i :: 0 <= i < |folders| ==> HasKey(folders[i], "id")
    requires forall i :: 0 <= i < |folders| ==> !Matches(folders[i], "id", PyStr(folderId))
    ensures ShareFolder(folders, agent, folderId) == Failure(NoFolder(folderId))
  {
    FilterSucceeds(folders, "id", PyStr(folderId));
    FilterKeeps(folders, "id", PyStr(folderId));
    var matching := FilterPositions(folders, "id", PyStr(folderId)).value;
  }

  /** The first folder with the id, folder i, gets the agent's device appended
      to its list iff that list lacks the device; otherwise the folders are
      unchanged. */
  lemma ShareFolderMeaning(folders: seq<Value>, agent: Value, folderId: string, i: nat)
    requires forall j :: 0 <= j < |folders| ==> HasKey(folders[j], "id")
    requires i < |folders| && Matches(folders[i], "id", PyStr(folderId))
    requires forall j :: 0 <= j < i ==> !Matches(folders[j], "id", PyStr(folderId))
    requires HasKey(folders[i], "devices") && folders[i].entries["devices"].PyList?
    requires var shared := folders[i].entries["devices"].items;
             forall j :: 0 <= j < |shared| ==> HasKey(shared[j], "deviceID")
    ensures var shared := folders[i].entries["devices"].items;
            (forall j :: 0 <= j < |shared| ==> !Matches(shared[j], "deviceID", agent)) ==>
              ShareFolder(folders, agent, folderId) == Success(Step(folders[i := Shared(folders[i], shared, agent)], true))
    ensures var shared := folders[i].entries["devices"].items;
            (exists j :: 0 <= j < |shared| && Matches(shared[j], "deviceID", agent)) ==>
              ShareFolder(folders, agent, folderId) == Success(Step(folders, false))
  {
    var shared := folders[i].entries["devices"].items;
    FilterSucceeds(folders, "id", PyStr(folderId));
    FilterKeeps(folders, "id", PyStr(folderId));
    FilterSucceeds(shared, "deviceID", agent);
    FilterKeeps(shared, "deviceID", agent);
    var matching := FilterPositions(folders, "id", PyStr(folderId)).value;
    assert i in matching;
    FirstKept(folders, "id", PyStr(folderId));
    assert matching[0] == i;
    var has := FilterPositions(shared, "deviceID", agent).value;
    if has != [] {
      assert has[0] in has && Matches(shared[has[0]], "deviceID", agent);
    }
  }

  /** Adding the device twice adds it once. */
  lemma AddDeviceIdempotent(devices: seq<Value>, agent: Value, name: string)
    requires AddDevice(devices, agent, name).Success?
    ensures var d := AddDevice(devices, agent, name).value;
            AddDevice(d.items, agent, name) == Success(Step(d.items, false))
  {
    var present := FilterPositions(devices, "deviceID", agent).value;
    if present == [] {
      FilterAppend(devices, DeviceRecord(agent, name), "deviceID", agent);
    }
  }

  /** Sharing the folder twice shares it once. */
  lemma ShareFolderIdempotent(folders: seq<Value>, agent: Value, folderId: string)
    requires ShareFolder(folders, agent, folderId).Success?
    ensures var f := ShareFolder(folders, agent, folderId).value;
            ShareFolder(f.items, agent, folderId) == Success(Step(f.items, false))
  {
    var f := ShareFolder(folders, agent, folderId).value;
    var matching := FilterPositions(folders, "id", PyStr(folderId)).value;
    var i := matching[0];
    var folder := folders[i];
    var shared := folder.entries["devices"].items;
    var has := FilterPositions(shared, "deviceID", agent).value;
    if has == [] {
      var folder' := Shared(folder, shared, agent);
      assert f.items == folders[i := folder'];
      forall j | 0 <= j < |folders|
        ensures GetItem(folders[j], "id") == GetItem(f.items[j], "id")
      {
      }
      FilterSameKeys(folders, f.items, "id", PyStr(folderId));
      FilterAppend(shared, ShareEntry(agent), "deviceID", agent);
      assert f.items[i] == folder';
    }
  }

  /** Reconciling is idempotent: a second run on the first run's result
      changes nothing and leaves the configuration clean. */
  lemma ReconcileIdempotent(devices: seq<Value>, folders: seq<Value>, agent: Value, name: string, folderId: string)
    requires ReconcileSpec(devices, folders, agent, name, folderId).dirty.Success?
    ensures var o := ReconcileSpec(devices, folders, agent, name, folderId);
            ReconcileSpec(o.devices, o.folders, agent, name, folderId) == Outcome(o.devices, o.folders, Success(false))
  {
    AddDeviceIdempotent(devices, agent, name);
    ShareFolderIdempotent(folders, agent, folderId);
  }

  /** The configuration the handler fetched from Syncthing; the reconciliation
      appends to its device list and to a folder's device list in place. */
  class SyncthingConfig {
    var devices: seq<Value>
    var folders: seq<Value>

    constructor (devices: seq<Value>, folders: seq<Value>)
      ensures this.devices == devices && this.folders == folders
    {
      this.devices := devices;
      this.folders := folders;
    }

    /** handlers/startup.py:59-91: returns the dirty flag, or raises. */
    method Reconcile(agent: Value, name: string, folderId: string) returns (r: Result<bool, PyError>)
      modifies this
      ensures var o := ReconcileSpec(old(devices), old(folders), agent, name, folderId);
              devices == o.devices && folders == o.folders && r == o.dirty
    {
      var added := AddAgentDevice(agent, name);
      if added.Failure? {
        return Failure(added.error);
      }
      var shared := ShareWithAgent(agent, folderId);
      if shared.Failure? {
        return Failure(shared.error);
      }
      r := Success(added.value || shared.value);
    }

    /** handlers/startup.py:59-73: appends the agent's device record when no device has its
        id; returns whether it did. */
    method AddAgentDevice(agent: Value, name: string) returns (r: Result<bool, PyError>)
      modifies this
      ensures var step := AddDevice(old(devices), agent, name);
              folders == old(folders) &&
              (step.Failure? ==> r == Failure(step.error) && devices == old(devices)) &&
              (step.Success? ==> r == Success(step.value.changed) && devices == step.value.items)
    {
      var present := FilterPositions(devices, "deviceID", agent);
      if present.Failure? {
        return Failure(present.error);
      }
      if present.value == [] {
        devices := devices + [DeviceRecord(agent, name)];
        return Success(true);
      }
      r := Success(false);
    }

    /** handlers/startup.py:76-88: appends the agent's device to the first shared folder's
        device list when it lacks it; returns whether it did. */
    method ShareWithAgent(agent: Value, folderId: string) returns (r: Result<bool, PyError>)
      modifies this
      ensures var step := ShareFolder(old(folders), agent, folderId);
              devices == old(devices) &&
              (step.Failure? ==> r == Failure(step.error) && folders == old(folders)) &&
              (step.Success? ==> r == Success(step.value.changed) && folders == step.value.items)
    {
      var matching := FilterPositions(folders, "id", PyStr(folderId));
      if matching.Failure? {
        return Failure(matching.error);
      }
      if matching.value == [] {
        return Failure(NoFolder(folderId));
      }
      var i := matching.value[0];
      var folder := folders[i];
      var shared := GetItem(folder, "devices");
      if shared.Failure? {
        return Failure(shared.error);
      }
      if !shared.value.PyList? {
        return Failure(NotAList(shared.value));
      }
      var has := FilterPositions(shared.value.items, "deviceID", agent);
      if has.Failure? {
        return Failure(has.error);
      }
      if has.value == [] {
        folders := folders[i := Shared(folder, shared.value.items, agent)];
        return Success(true);
      }
      r := Success(false);
    }
  }

  /** The requests the handler sends after reconciling. */
  datatype Request = Post(url: string, body: Option<string>)

  /** handlers/startup.py:90-99: nothing is sent when the configuration is clean; otherwise
      the configuration (its JSON text is `body`) is posted once, and only if
      Syncthing accepts it is a restart posted. The arguments of each raised
      Exception are given as a list. */
  method Publish(dirty: bool, base: string, body: string, postOk: bool, postReason: Value,
                 restartOk: bool, restartReason: Value)
    returns (sent: seq<Request>, r: Result<(), PyError>)
    ensures !dirty ==> sent == [] && r == Success(())
    ensures dirty ==> 1 <= |sent| <= 2 && sent[0] == Post(GetUrl(base, ENDPOINT_CONFIG), Some(body))
    ensures |sent| == 2 <==> dirty && postOk
    ensures |sent| == 2 ==> sent[1] == Post(GetUrl(base, ENDPOINT_RESTART), None)
    ensures r.Success? <==> !dirty || (postOk && restartOk)
    ensures dirty && !postOk ==> r == Failure(Exception(PyList([PyStr("Failed to set syncthing configuration"), postReason])))
    ensures dirty && postOk && !restartOk ==>
              r == Failure(Exception(PyList([PyStr("Failed to restart syncthing"),
                                             PyStr(GetUrl(base, ENDPOINT_RESTART)), restartReason])))
  {
    sent := [];
    if !dirty {
      return sent, Success(());
    }
    var endpoint := GetUrl(base, ENDPOINT_CONFIG);
    sent := sent + [Post(endpoint, Some(body))];
    if !postOk {
      return sent, Failure(Exception(PyList([PyStr("Failed to set syncthing configuration"), postReason])));
    }
    sent := sent + [Post(GetUrl(base, ENDPOINT_RESTART), None)];
    if !restartOk {
      return sent, Failure(Exception(PyList([PyStr("Failed to restart syncthing"),
                                             PyStr(GetUrl(base, ENDPOINT_RESTART)), restartReason])));
    }
    r := Success(());
  }
}
