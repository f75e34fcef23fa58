/**
 * The reactive handlers of the data-mover charm. The reactive framework keeps a
 * set of flags between dispatches; each handler fires only when its guard holds
 * over that set, and changes it through set_flag/set_state/remove_state. The
 * unit's status is the last one the handlers (or the routines they call) set on
 * the node.
 */
module DataMoverHandlers {
  import opened Host
  import opened Pipeline
  import opened Text
  import U = DataMoverUtils

  const INSTALLED := "tvault-contego.installed"
  const STOPPING := "tvault-contego.stopping"
  const CONFIG_CHANGED := "config.changed"
  const SERVICE := "tvault-contego"

  const MSG_INSTALLING := "Installing..."
  const MSG_READY := "Unit is ready"
  const MSG_STOPPING := "Stopping Trilio service"

  const DAEMON_RELOAD := Command(["systemctl", "daemon-reload"])
  const ENABLE_SERVICE := Command(["systemctl", "enable", SERVICE])

  // ---------------------------------------------------------------------------
  // install_tvault_contego_plugin

  /** The eight checks of the install handler; the first that returns False ends it. */
  datatype InstallStep =
    | ValidateIpStep | ValidateNfsStep | AddUsersStep | CreateVirtEnvStep
    | EnsureFilesStep | CreateConfStep | EnsureDataDirStep | CreateServiceFileStep

  const INSTALL_ORDER := [ValidateIpStep, ValidateNfsStep, AddUsersStep, CreateVirtEnvStep,
                          EnsureFilesStep, CreateConfStep, EnsureDataDirStep, CreateServiceFileStep]

  /** What one check does. add_users, ensure_files and ensure_data_dir are not
      modelled beyond their outcome and, for the first two, the blocked status
      they set when they return False. */
  function StepRun(env: Env, step: InstallStep): Run<bool>
  {
    match step
    case ValidateIpStep => U.ValidateIpRun(env.config.triliovaultIp, env)
    case ValidateNfsStep => U.ValidateNfsRun(env)
    case AddUsersStep => U.UnmodelledRun(env, "add_users", Some(U.MSG_ADD_USERS))
    case CreateVirtEnvStep => U.VirtEnvRun(env)
    case EnsureFilesStep => U.UnmodelledRun(env, "ensure_files", Some(U.MSG_NO_BINARY))
    case CreateConfStep => U.CreateConfRun(env)
    case EnsureDataDirStep => U.UnmodelledRun(env, "ensure_data_dir", None)
    case CreateServiceFileStep => U.ServiceFileRun(env)
  }

  /** The checks, in the handler's order, as they would run one after the other. */
  function InstallRuns(env: Env): (runs: seq<Run<bool>>)
    ensures |runs| == |INSTALL_ORDER|
    ensures forall i :: 0 <= i < |runs| ==> runs[i] == StepRun(env, INSTALL_ORDER[i])
  {
    seq(|INSTALL_ORDER|, i requires 0 <= i < |INSTALL_ORDER| => StepRun(env, INSTALL_ORDER[i]))
  }

  /** After the checks: reload systemd, enable and restart the service, report
      ready, publish the appliance's version. `check_call` and the version lookup
      may raise; the restart's result is ignored. */
  function FinishRun(env: Env): Run<bool>
  {
    if !env.ok(DAEMON_RELOAD) then Run(Raised, [DAEMON_RELOAD])
    else if !env.ok(ENABLE_SERVICE) then Run(Raised, [DAEMON_RELOAD, ENABLE_SERVICE])
    else
      var head := [DAEMON_RELOAD, ENABLE_SERVICE, ServiceRestart(SERVICE), SetStatus(Active, MSG_READY)];
      var version := U.NewVersionRun(env, SERVICE);
      if version.outcome.Raised? then Run(Raised, head + version.effects)
      else Run(Returned(true), head + version.effects + [SetAppVersion(version.outcome.value)])
  }

  /** The whole handler: outcome True means it reached set_flag. */
  function InstallRun(env: Env): Run<bool>
  {
    var checks := FailFast(InstallRuns(env));
    var head := [SetStatus(Maintenance, MSG_INSTALLING)] + checks.effects;
    if !Passed(checks) then Run(checks.outcome, head)
    else
      var finish := FinishRun(env);
      Run(finish.outcome, head + finish.effects)
  }

  /** The checks run in the handler's order and none runs after the first that
      does not return True: the handler then ends as that check ended, having
      made only the calls of the checks up to it. */
  lemma InstallStopsAtFirstFailure(env: Env, k: nat)
    requires k < |INSTALL_ORDER|
    requires forall j :: 0 <= j < k ==> Passed(StepRun(env, INSTALL_ORDER[j]))
    requires !Passed(StepRun(env, INSTALL_ORDER[k]))
    ensures InstallRun(env) ==
              Run(StepRun(env, INSTALL_ORDER[k]).outcome,
                  [SetStatus(Maintenance, MSG_INSTALLING)] + Concat(InstallRuns(env)[..k + 1]))
  {
    ChainStep(InstallRuns(env), k);
  }

  /** The handler reaches set_flag exactly when all eight checks return True and
      reload, enable and the version lookup all complete. */
  lemma InstallCompletesIff(env: Env)
    ensures InstallRun(env).outcome == Returned(true) <==>
              (forall i :: 0 <= i < |INSTALL_ORDER| ==> Passed(StepRun(env, INSTALL_ORDER[i]))) &&
              env.ok(DAEMON_RELOAD) && env.ok(ENABLE_SERVICE) && U.NewVersionRun(env, SERVICE).outcome.Returned?
  {
    FailFastPasses(InstallRuns(env));
  }

  /** A completed install made the calls of all eight checks, then reloaded,
      enabled and restarted the service, reported ready, fetched the package
      index and published the version. */
  lemma InstallCompletedCalls(env: Env)
    requires InstallRun(env).outcome == Returned(true)
    ensures InstallRun(env).effects ==
              [SetStatus(Maintenance, MSG_INSTALLING)] + Concat(InstallRuns(env)) +
              [DAEMON_RELOAD, ENABLE_SERVICE, ServiceRestart(SERVICE), SetStatus(Active, MSG_READY)] +
              [Command(U.CurlCommand(env.config.triliovaultIp)),
               SetAppVersion(U.NewVersionRun(env, SERVICE).outcome.value)]
  {
    var runs := InstallRuns(env);
    FailFastSpec(runs);
    assert FirstFailure(runs) == |runs|;
    assert runs[..|runs|] == runs;
    assert FailFast(runs).effects == Concat(runs);
  }

  /** So a completed install leaves the unit showing active 'Unit is ready'. */
  lemma InstallEndsReady(env: Env)
    requires InstallRun(env).outcome == Returned(true)
    ensures LastStatus(InstallRun(env).effects) == Some((Active, MSG_READY))
  {
    InstallCompletedCalls(env);
    var pre := [SetStatus(Maintenance, MSG_INSTALLING)] + Concat(InstallRuns(env)) +
               [DAEMON_RELOAD, ENABLE_SERVICE, ServiceRestart(SERVICE), SetStatus(Active, MSG_READY)];
    var post := [Command(U.CurlCommand(env.config.triliovaultIp)),
                 SetAppVersion(U.NewVersionRun(env, SERVICE).outcome.value)];
    LastStatusSkips(pre, post);
    assert pre[|pre| - 1] == SetStatus(Active, MSG_READY);
  }

  /** An unset or blank appliance address ends the handler at once, silently:
      the unit keeps showing 'Installing...' and nothing else is called. */
  lemma BlankIpKeepsInstalling(env: Env)
    requires env.config.triliovaultIp.None? || AllSpace(env.config.triliovaultIp.value)
    ensures InstallRun(env) == Run(Returned(false), [SetStatus(Maintenance, MSG_INSTALLING)])
    ensures LastStatus(InstallRun(env).effects) == Some((Maintenance, MSG_INSTALLING))
  {
    U.ValidateIpBlank(env.config.triliovaultIp, env);
    InstallStopsAtFirstFailure(env, 0);
    assert InstallRuns(env)[..1] == [StepRun(env, ValidateIpStep)];
  }

  /** When add_users or ensure_files is the first check to return False, the
      handler ends there and the unit shows the blocked status that check set. */
  lemma UnmodelledFailureBlocks(env: Env, k: nat)
    requires k < |INSTALL_ORDER|
    requires (INSTALL_ORDER[k] == AddUsersStep && env.unmodelled("add_users") == Returned(false)) ||
             (INSTALL_ORDER[k] == EnsureFilesStep && env.unmodelled("ensure_files") == Returned(false))
    requires forall j :: 0 <= j < k ==> Passed(StepRun(env, INSTALL_ORDER[j]))
    ensures InstallRun(env).outcome == Returned(false)
    ensures LastStatus(InstallRun(env).effects) ==
              Some((Blocked, if INSTALL_ORDER[k] == AddUsersStep then U.MSG_ADD_USERS else U.MSG_NO_BINARY))
  {
    var runs := InstallRuns(env);
    var msg := if INSTALL_ORDER[k] == AddUsersStep then U.MSG_ADD_USERS else U.MSG_NO_BINARY;
    assert runs[k].effects[|runs[k].effects| - 1] == SetStatus(Blocked, msg);
    InstallStopsAtFirstFailure(env, k);
    ChainStep(runs, k);
    var log := [SetStatus(Maintenance, MSG_INSTALLING)] + (Concat(runs[..k]) + runs[k].effects);
    assert InstallRun(env).effects == log;
    assert log[|log| - 1] == SetStatus(Blocked, msg);
  }

  /** A malformed address ends the handler blocked with the invalid-address message. */
  lemma MalformedIpBlocks(ip: string, env: Env)
    requires env.config.triliovaultIp == Some(ip) && U.NotBlank(Some(ip)) && !env.isIpv4(ip)
    ensures InstallRun(env) ==
              Run(Returned(false), [SetStatus(Maintenance, MSG_INSTALLING), SetStatus(Blocked, U.MSG_INVALID_IP)])
    ensures LastStatus(InstallRun(env).effects) == Some((Blocked, U.MSG_INVALID_IP))
  {
    InstallStopsAtFirstFailure(env, 0);
    assert InstallRuns(env)[..1] == [StepRun(env, ValidateIpStep)];
  }

  // ---------------------------------------------------------------------------
  // config_changed

  /** Stop the service, validate the NFS target, rewrite the configuration and
      report ready when it is valid, start the service. create_conf's result is
      ignored; any exception ends the handler where it is raised. */
  function ConfigChangedRun(env: Env): Run<bool>
  {
    var stop := [ServiceStop(SERVICE)];
    var nfs := U.ValidateNfsRun(env);
    if nfs.outcome.Raised? then Run(Raised, stop + nfs.effects)
    else if !nfs.outcome.value then Run(Returned(false), stop + nfs.effects + [ServiceStart(SERVICE)])
    else
      var conf := U.CreateConfRun(env);
      if conf.outcome.Raised? then Run(Raised, stop + nfs.effects + conf.effects)
      else Run(Returned(true), stop + nfs.effects + conf.effects + [SetStatus(Active, MSG_READY), ServiceStart(SERVICE)])
  }

  /** The NFS check writes no configuration and never reports ready. */
  lemma NfsWritesNoConf(env: Env)
    ensures U.ConfWrite(env) !in U.ValidateNfsRun(env).effects
    ensures SetStatus(Active, MSG_READY) !in U.ValidateNfsRun(env).effects
  {
  }

  /** config_changed stops the service before anything else, and starts it last
      whenever no call raised. */
  lemma ConfigChangedBracketed(env: Env)
    ensures var run := ConfigChangedRun(env);
      |run.effects| >= 1 && run.effects[0] == ServiceStop(SERVICE) &&
      (run.outcome.Returned? ==> run.effects[|run.effects| - 1] == ServiceStart(SERVICE))
  {
  }

  /** The configuration is rewritten, and the unit reported ready, exactly when
      the NFS target validated; the handler returns True exactly then. */
  lemma ConfigRewrittenOnlyWhenValid(env: Env)
    ensures var run := ConfigChangedRun(env);
      (U.ConfWrite(env) in run.effects <==> U.ValidateNfsRun(env).outcome == Returned(true)) &&
      (SetStatus(Active, MSG_READY) in run.effects <==> run.outcome == Returned(true)) &&
      (run.outcome == Returned(true) <==> U.ValidateNfsRun(env).outcome == Returned(true) && env.ok(U.ConfWrite(env)))
  {
    NfsWritesNoConf(env);
  }

  // ---------------------------------------------------------------------------
  // stop_tvault_contego_plugin

  function TeardownRun(env: Env): Run<bool>
  {
    var uninstall := U.UninstallRun(env);
    Run(uninstall.outcome, [SetStatus(Maintenance, MSG_STOPPING)] + uninstall.effects)
  }

  /** uninstall_plugin sets no status, so after teardown the unit still shows
      maintenance 'Stopping Trilio service', whatever the outcome. */
  lemma TeardownShowsStopping(env: Env)
    ensures LastStatus(TeardownRun(env).effects) == Some((Maintenance, MSG_STOPPING))
  {
    var uninstall := U.UninstallRun(env);
    var pre := UntilRaise(U.TEARDOWN_CALLS, env.ok);
    assert forall j :: 0 <= j < |U.TEARDOWN_CALLS| ==> !IsStatus(U.TEARDOWN_CALLS[j]);
    if Passed(pre) {
      var w := U.WaitCalls(env.ok, 0);
      var um := U.Unmounts(U.MountPathsToUnmount(env.mountTable));
      U.WaitLayout(env.ok, 0);
      assert forall j :: 0 <= j < |w| ==> !IsStatus(w[j]);
      assert forall j :: 0 <= j < |um| ==> !IsStatus(um[j]);
      var parts := [ServiceStop(SERVICE)] + U.TEARDOWN_CALLS + w + um + [AptPurge([SERVICE])];
      assert uninstall.effects == parts;
      assert forall j :: 0 <= j < |parts| ==> !IsStatus(parts[j]);
    } else {
      assert forall j :: 0 <= j < |pre.effects| ==> !IsStatus(pre.effects[j]);
    }
    LastStatusSkips([SetStatus(Maintenance, MSG_STOPPING)], uninstall.effects);
  }

  // ---------------------------------------------------------------------------
  // Dispatch

  datatype Handler = Install | ConfigChanged | StopHook | Teardown

  /** The guards the handlers are registered with. The stop hook is bound to the
      `stop` event and has no flag guard. */
  predicate Enabled(h: Handler, flags: set<string>)
  {
    match h
    case Install => INSTALLED !in flags
    case ConfigChanged => CONFIG_CHANGED in flags && INSTALLED in flags
    case StopHook => true
    case Teardown => STOPPING in flags
  }

  /** The flags a handler leaves behind, given how it ended. */
  function NextFlags(h: Handler, flags: set<string>, outcome: Outcome<bool>): set<string>
  {
    match h
    case Install => if outcome == Returned(true) then flags + {INSTALLED} else flags
    case ConfigChanged => flags
    case StopHook => flags + {STOPPING}
    case Teardown => if outcome == Returned(true) then flags - {STOPPING} else flags
  }

  /** The flags after a series of dispatches, each given with how its handler
      ended; a handler whose guard does not hold changes nothing. */
  function FlagsAfter(flags: set<string>, dispatches: seq<(Handler, Outcome<bool>)>): set<string>
    decreases |dispatches|
  {
    if dispatches == [] then flags
    else
      var (h, o) := dispatches[0];
      FlagsAfter(if Enabled(h, flags) then NextFlags(h, flags, o) else flags, dispatches[1..])
  }

  /** No handler clears `installed`: once set it stays set, so the install handler
      never fires again. */
  lemma {:induction false} InstalledStays(flags: set<string>, dispatches: seq<(Handler, Outcome<bool>)>)
    requires INSTALLED in flags
    ensures INSTALLED in FlagsAfter(flags, dispatches)
    ensures !Enabled(Install, FlagsAfter(flags, dispatches))
    decreases |dispatches|
  {
    if dispatches != [] {
      var (h, o) := dispatches[0];
      InstalledStays(if Enabled(h, flags) then NextFlags(h, flags, o) else flags, dispatches[1..]);
    }
  }

  /** Until `installed` is set, only an install that ran to its end can set it:
      after failed installs the guard still lets the install handler fire. */
  lemma {:induction false} InstallRetried(flags: set<string>, dispatches: seq<(Handler, Outcome<bool>)>)
    requires INSTALLED !in flags
    requires forall i :: 0 <= i < |dispatches| ==> dispatches[i].0 == Install ==> dispatches[i].1 != Returned(true)
    ensures Enabled(Install, FlagsAfter(flags, dispatches))
    decreases |dispatches|
  {
    if dispatches != [] {
      var (h, o) := dispatches[0];
      InstallRetried(if Enabled(h, flags) then NextFlags(h, flags, o) else flags, dispatches[1..]);
    }
  }

  /** Once set, `stopping` is cleared only by a teardown whose uninstall returned True. */
  lemma {:induction false} StoppingUntilUninstalled(flags: set<string>, dispatches: seq<(Handler, Outcome<bool>)>)
    requires STOPPING in flags
    requires forall i :: 0 <= i < |dispatches| ==> dispatches[i].0 == Teardown ==> dispatches[i].1 != Returned(true)
    ensures STOPPING in FlagsAfter(flags, dispatches)
    ensures Enabled(Teardown, FlagsAfter(flags, dispatches))
    decreases |dispatches|
  {
    if dispatches != [] {
      var (h, o) := dispatches[0];
      StoppingUntilUninstalled(if Enabled(h, flags) then NextFlags(h, flags, o) else flags, dispatches[1..]);
    }
  }

  /** The charm on one unit: the reactive flags, and the node whose log holds every
      call the handlers made (and so the unit's status). */
  class DataMoverCharm {
    const host: Machine
    var flags: set<string>

    constructor (host: Machine)
      ensures this.host == host && flags == {}
    {
      this.host := host;
      flags := {};
    }

    method RunStep(env: Env, step: InstallStep) returns (r: Outcome<bool>)
      modifies host
      ensures host.log == old(host.log) + StepRun(env, step).effects
      ensures r == StepRun(env, step).outcome
    {
      match step
      case ValidateIpStep => r := host.Perform(U.ValidateIpRun(env.config.triliovaultIp, env));
      case ValidateNfsStep => r := U.ValidateNfs(host, env);
      case AddUsersStep => r := host.Perform(U.UnmodelledRun(env, "add_users", Some(U.MSG_ADD_USERS)));
      case CreateVirtEnvStep => r := U.CreateVirtEnv(host, env);
      case EnsureFilesStep => r := host.Perform(U.UnmodelledRun(env, "ensure_files", Some(U.MSG_NO_BINARY)));
      case CreateConfStep => r := U.CreateConf(host, env);
      case EnsureDataDirStep => r := host.Perform(U.UnmodelledRun(env, "ensure_data_dir", None));
      case CreateServiceFileStep => r := U.CreateServiceFile(host, env);
    }

    /** Runs the checks in order until one does not return True. */
    method RunChecks(env: Env) returns (r: Outcome<bool>)
      modifies host
      ensures host.log == old(host.log) + FailFast(InstallRuns(env)).effects
      ensures r == FailFast(InstallRuns(env)).outcome
    {
      ghost var runs := InstallRuns(env);
      assert runs[..0] == [];
      var i := 0;
      while i < |INSTALL_ORDER|
        invariant i <= |INSTALL_ORDER|
        invariant forall j :: 0 <= j < i ==> Passed(runs[j])
        invariant host.log == old(host.log) + Concat(runs[..i])
      {
        r := RunStep(env, INSTALL_ORDER[i]);
        ChainStep(runs, i);
        Assoc(old(host.log), Concat(runs[..i]), runs[i].effects);
        if r != Returned(true) {
          return;
        }
        i := i + 1;
      }
      ChainStep(runs, |runs| - 1);
      r := Returned(true);
    }

    /** Reload, enable, restart, report ready, publish the version. */
    method Finish(env: Env) returns (r: Outcome<bool>)
      modifies host
      ensures host.log == old(host.log) + FinishRun(env).effects
      ensures r == FinishRun(env).outcome
    {
      var reloaded := host.Call(DAEMON_RELOAD, env);
      if !reloaded {
        return Raised;
      }
      var enabled := host.Call(ENABLE_SERVICE, env);
      if !enabled {
        return Raised;
      }
      host.Record(ServiceRestart(SERVICE));
      host.Record(SetStatus(Active, MSG_READY));
      var version := U.GetNewVersion(host, env, SERVICE);
      if version.Raised? {
        return Raised;
      }
      host.Record(SetAppVersion(version.value));
      return Returned(true);
    }

    /** `@when_not('tvault-contego.installed')`: the flag is set exactly when the
        handler runs to its end. */
    method InstallTvaultContegoPlugin(env: Env) returns (r: Outcome<bool>)
      requires Enabled(Install, flags)
      modifies this, host
      ensures host.log == old(host.log) + InstallRun(env).effects
      ensures r == InstallRun(env).outcome
      ensures flags == NextFlags(Install, old(flags), r)
    {
      host.Record(SetStatus(Maintenance, MSG_INSTALLING));
      ghost var checks := FailFast(InstallRuns(env));
      r := RunChecks(env);
      Assoc(old(host.log), [SetStatus(Maintenance, MSG_INSTALLING)], checks.effects);
      if r != Returned(true) {
        return;
      }
      r := Finish(env);
      Assoc(old(host.log), [SetStatus(Maintenance, MSG_INSTALLING)] + checks.effects, FinishRun(env).effects);
      if r != Returned(true) {
        return;
      }
      flags := flags + {INSTALLED};
    }

    /** `@when('config.changed')` and `@when('tvault-contego.installed')`. */
    method ConfigChangedHandler(env: Env) returns (r: Outcome<bool>)
      requires Enabled(ConfigChanged, flags)
      modifies host
      ensures host.log == old(host.log) + ConfigChangedRun(env).effects
      ensures r == ConfigChangedRun(env).outcome
      ensures flags == NextFlags(ConfigChanged, old(flags), r)
    {
      host.Record(ServiceStop(SERVICE));
      ghost var nfs := U.ValidateNfsRun(env);
      var valid := U.ValidateNfs(host, env);
      Assoc(old(host.log), [ServiceStop(SERVICE)], nfs.effects);
      if valid.Raised? {
        return Raised;
      }
      ghost var stopped := [ServiceStop(SERVICE)] + nfs.effects;
      if !valid.value {
        host.Record(ServiceStart(SERVICE));
        Assoc(old(host.log), stopped, [ServiceStart(SERVICE)]);
        return valid;
      }
      ghost var conf := U.CreateConfRun(env);
      var written := U.CreateConf(host, env);
      Assoc(old(host.log), stopped, conf.effects);
      if written.Raised? {
        return Raised;
      }
      host.Record(SetStatus(Active, MSG_READY));
      host.Record(ServiceStart(SERVICE));
      Assoc(old(host.log), stopped + conf.effects, [SetStatus(Active, MSG_READY), ServiceStart(SERVICE)]);
      return valid;
    }

    /** `@hook('stop')`: sets `stopping` and nothing else. */
    method StopHandler()
      modifies this
      ensures flags == NextFlags(StopHook, old(flags), Returned(true))
    {
      flags := flags + {STOPPING};
    }

    /** `@when('tvault-contego.stopping')`: `stopping` is cleared only when the
        uninstall succeeds. */
    method StopTvaultContegoPlugin(env: Env) returns (r: Outcome<bool>)
      requires Enabled(Teardown, flags)
      modifies this, host
      ensures host.log == old(host.log) + TeardownRun(env).effects
      ensures r == TeardownRun(env).outcome
      ensures flags == NextFlags(Teardown, old(flags), r)
    {
      host.Record(SetStatus(Maintenance, MSG_STOPPING));
      ghost var uninstall := U.UninstallRun(env);
      var ok := U.UninstallPlugin(host, env);
      Assoc(old(host.log), [SetStatus(Maintenance, MSG_STOPPING)], uninstall.effects);
      if ok {
        flags := flags - {STOPPING};
      }
      return Returned(ok);
    }

    /** One dispatch of handler `h`: it runs when its guard holds and otherwise
        nothing happens. */
    method Dispatch(h: Handler, env: Env) returns (fired: bool, r: Outcome<bool>)
      modifies this, host
      ensures fired == Enabled(h, old(flags))
      ensures !fired ==> flags == old(flags) && host.log == old(host.log)
      ensures fired ==> flags == NextFlags(h, old(flags), r)
      ensures fired && h == Install ==> host.log == old(host.log) + InstallRun(env).effects && r == InstallRun(env).outcome
      ensures fired && h == ConfigChanged ==>
                host.log == old(host.log) + ConfigChangedRun(env).effects && r == ConfigChangedRun(env).outcome
      ensures fired && h == StopHook ==> host.log == old(host.log)
      ensures fired && h == Teardown ==> host.log == old(host.log) + TeardownRun(env).effects && r == TeardownRun(env).outcome
    {
      fired := Enabled(h, flags);
      r := Returned(true);
      if !fired {
        return;
      }
      match h
      case Install => r := InstallTvaultContegoPlugin(env);
      case ConfigChanged => r := ConfigChangedHandler(env);
      case StopHook => StopHandler();
      case Teardown => r := StopTvaultContegoPlugin(env);
    }
  }
}
