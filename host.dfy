/**
 * The compute node as the data-mover charm sees it: every external call the
 * charm makes (status updates, subprocesses, package manager, file system,
 * mounts, services) is an `Effect`, recorded in order in a `Machine`'s log.
 * What the outside world answers is an `Env`, fixed for one hook dispatch.
 */
module Host {

  datatype Option<+T> = None | Some(value: T)

  /** How a Python call ended, as its caller sees it: the value it returned,
      or an exception that escaped it. */
  datatype Outcome<+T> = Returned(value: T) | Raised

  /** One call of a charm routine: how it ended and the external calls it made, in order. */
  datatype Run<+T> = Run(outcome: Outcome<T>, effects: seq<Effect>)

  /** Workload status levels used by the charm (hookenv.status_set). */
  datatype Level = Maintenance | Blocked | Active

  /** A value stored in a configparser section; configparser keeps the Python value
      and writes `str()` of it, so `None`, booleans and integers stay distinct. */
  datatype Value = Text(s: string) | Flag(b: bool) | Number(n: int) | Null

  datatype Section = Section(name: string, entries: seq<(string, Value)>)

  datatype Effect =
    | SetStatus(level: Level, message: string)
    | SetAppVersion(version: string)
    | Command(argv: seq<string>)
    | AddSource(line: string)
    | AptUpdate
    | AptInstall(packages: seq<string>, options: seq<string>)
    | AptPurge(packages: seq<string>)
    | MakeDir(path: string, owner: string, group: string, perms: int)
    | Mount(device: string, mountPoint: string, fsType: string)
    | Umount(mountPoint: string)
    | RemoveTree(path: string)
    | RemoveFile(path: string)
    | FetchArchive(url: string, dest: string)
    | LinkRuntime(paths: seq<string>)
    | WriteConfig(path: string, sections: seq<Section>)
    | ServiceStop(service: string)
    | ServiceStart(service: string)
    | ServiceRestart(service: string)
    | ServiceRunning(service: string, poll: nat)
    | Sleep(seconds: nat)
    | Unmodelled(step: string)

  /** The three charm options the core reads; `None` is an unset option. */
  datatype Config = Config(triliovaultIp: Option<string>, nfsShares: Option<string>, nfsOptions: Option<string>)

  /**
   * The world during one dispatch:
   *  - `isIpv4` stands for netaddr.valid_ipv4;
   *  - `ok(e)` says whether the call `e` completes normally (for a subprocess:
   *    exits with status 0; for a call that returns a boolean: returns True;
   *    for `ServiceRunning(s, k)`: the k-th poll finds `s` running);
   *  - `stdout(argv)` is what the command prints;
   *  - `installed` is the set of installed distribution packages;
   *  - `mountTable` is charmhelpers' mounts(): (mount point, device) pairs;
   *  - `unmodelled(name)` is how the unmodelled step `name` ends.
   */
  datatype Env = Env(
    config: Config,
    isIpv4: string -> bool,
    ok: Effect -> bool,
    stdout: seq<string> -> string,
    installed: set<string>,
    mountTable: seq<(string, string)>,
    unmodelled: string -> Outcome<bool>)

  predicate IsStatus(e: Effect) { e.SetStatus? }

  /** The status the unit shows after the calls in `log`: the last one set, if any. */
  function LastStatus(log: seq<Effect>): Option<(Level, string)>
  {
    if log == [] then None
    else if IsStatus(log[|log| - 1]) then Some((log[|log| - 1].level, log[|log| - 1].message))
    else LastStatus(log[..|log| - 1])
  }

  /** No status is shown until one is set; otherwise the status shown was set by
      some call after which none was. */
  lemma {:induction false} LastStatusSpec(log: seq<Effect>)
    ensures var r := LastStatus(log);
      (r == None <==> forall i :: 0 <= i < |log| ==> !IsStatus(log[i])) &&
      (r.Some? ==> exists i :: 0 <= i < |log| && log[i] == SetStatus(r.value.0, r.value.1) &&
                     forall j :: i < j < |log| ==> !IsStatus(log[j]))
  {
    if log != [] && !IsStatus(log[|log| - 1]) {
      var init := log[..|log| - 1];
      LastStatusSpec(init);
      assert forall i :: 0 <= i < |init| ==> init[i] == log[i];
      var r := LastStatus(log);
      if r.Some? {
        var i :| 0 <= i < |init| && init[i] == SetStatus(r.value.0, r.value.1) &&
                 forall j :: i < j < |init| ==> !IsStatus(init[j]);
        assert forall j :: i < j < |log| ==> !IsStatus(log[j]);
      }
    }
  }

  /** Calls that set no status leave the shown status as it was. */
  lemma {:induction false} LastStatusSkips(log: seq<Effect>, tail: seq<Effect>)
    requires forall i :: 0 <= i < |tail| ==> !IsStatus(tail[i])
    ensures LastStatus(log + tail) == LastStatus(log)
  {
    if tail == [] {
      assert log + tail == log;
    } else {
      var shorter := tail[..|tail| - 1];
      var whole := log + tail;
      assert whole[|whole| - 1] == tail[|tail| - 1];
      assert !IsStatus(whole[|whole| - 1]);
      assert whole[..|whole| - 1] == log + shorter;
      assert LastStatus(whole) == LastStatus(log + shorter);
      LastStatusSkips(log, shorter);
    }
  }

  /** Regrouping a log built call by call as one made of whole runs. */
  lemma Assoc(a: seq<Effect>, b: seq<Effect>, c: seq<Effect>)
    ensures a + b + c == a + (b + c)
  {
  }

  /** The node: the ordered log of every external call made so far. */
  class Machine {
    var log: seq<Effect>

    constructor ()
      ensures log == []
    {
      log := [];
    }

    /** Makes the call `e` whose answer the caller ignores. */
    method Record(e: Effect)
      modifies this
      ensures log == old(log) + [e]
    {
      log := log + [e];
    }

    /** Makes the call `e` and tells whether it completed normally. */
    method Call(e: Effect, env: Env) returns (completed: bool)
      modifies this
      ensures log == old(log) + [e]
      ensures completed == env.ok(e)
    {
      log := log + [e];
      completed := env.ok(e);
    }

    /** Makes, in order, the calls of a run computed by a pure routine. */
    method Perform<T>(r: Run<T>) returns (o: Outcome<T>)
      modifies this
      ensures log == old(log) + r.effects
      ensures o == r.outcome
    {
      log := log + r.effects;
      o := r.outcome;
    }
  }
}
