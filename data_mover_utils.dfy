/**
 * The provisioning routines of the data-mover charm's library
 * (src/lib/trilio/trilio_data_mover_utils.py). Each routine is a `Run`
 * computed from the world `Env`: how it ends (a returned boolean, or an
 * exception that escapes it) and the external calls it makes. Routines that
 * act step by step are methods on the node, proved to make exactly the calls of
 * their `...Run` function; the lemmas state what the routines promise.
 */
module DataMoverUtils {
  import opened Host
  import opened Text
  import opened Pipeline
  import PackageIndex

  const TVAULT_VIRTENV_PATH := "/home/tvault/.virtenv"
  const TVAULT_HOME := "/home/tvault"
  const DATAMOVER_CONF := "/etc/tvault-contego/tvault-contego.conf"
  const TV_DATA_DIR := "/var/triliovault-mounts"
  const TV_DATA_DIR_OLD := "/var/triliovault"
  const DM_EXT_USR := "nova"
  const DM_EXT_GRP := "nova"
  /** The `perms=501` every directory is created with. */
  const DIR_PERMS := 501
  const CONTEGO := "tvault-contego"
  const OBJECT_STORE := "tvault-object-store"
  const SERVICE_FILE := "/etc/systemd/system/tvault-contego.service"
  const NOVA_CONF_DIR := "/etc/nova/nova.conf.d"
  const PROBE_PORT := "8781"
  /** The wait for the object store to stop sleeps at most this many times. */
  const MAX_RETRIES := 3
  const RETRY_SLEEP := 5

  const MSG_INVALID_IP := "Invalid IP address, please provide correct IP address"
  const MSG_UNREACHABLE := "Unable to reach TVault appliance"
  const MSG_NO_NFS := "No valid nfs-shares configuration found, please recheck"
  const MSG_NFS_MOUNT := "Failed while validating NFS mount, please recheck configuration"
  const MSG_VIRTENV := "Failed while Creating Virtual Env"
  const MSG_STARTING := "Starting"

  const MSG_ADD_USERS := "Failed while adding Users"
  const MSG_NO_BINARY := "TrilioVault Datamover binary is not present on TVault VM"

  /** The unmodelled routines add_users, ensure_files and ensure_data_dir: one call
      whose outcome the world decides. A routine that reports a blocked status on
      its False path (`blocked`) sets it after that call. */
  function UnmodelledRun(env: Env, step: string, blocked: Option<string>): Run<bool>
  {
    var outcome := env.unmodelled(step);
    if outcome == Returned(false) && blocked.Some? then
      Run(outcome, [Unmodelled(step), SetStatus(Blocked, blocked.value)])
    else Run(outcome, [Unmodelled(step)])
  }

  // ---------------------------------------------------------------------------
  // get_new_version

  /** `'curl -s http://{}:8081/packages/'.format(ip).split()` */
  function CurlCommand(ip: Option<string>): seq<string>
  {
    ["curl", "-s", "http://" + PyStr(ip) + ":8081/packages/"]
  }

  /** Fetch the package index of the appliance and read `pkg`'s version from it;
      a failed fetch or a page without the package raises. */
  function NewVersionRun(env: Env, pkg: string): Run<string>
  {
    var argv := CurlCommand(env.config.triliovaultIp);
    Run(if env.ok(Command(argv)) then PackageIndex.ParseVersion(env.stdout(argv), pkg) else Raised,
        [Command(argv)])
  }

  method GetNewVersion(host: Machine, env: Env, pkg: string) returns (r: Outcome<string>)
    modifies host
    ensures host.log == old(host.log) + NewVersionRun(env, pkg).effects
    ensures r == NewVersionRun(env, pkg).outcome
  {
    var argv := CurlCommand(env.config.triliovaultIp);
    var fetched := host.Call(Command(argv), env);
    if !fetched {
      return Raised;
    }
    r := PackageIndex.ParseVersion(env.stdout(argv), pkg);
  }

  // ---------------------------------------------------------------------------
  // validate_ip

  /** `nc -vzw 1 <ip> 8781`: can the appliance be reached on its control port? */
  function ProbeCommand(ip: string): seq<string>
  {
    ["nc", "-vzw", "1", ip, PROBE_PORT]
  }

  /** Python's `ip and ip.strip()`. */
  predicate NotBlank(ip: Option<string>)
  {
    ip.Some? && Strip(ip.value) != ""
  }

  /** Three-way check of the appliance address: blank, not IPv4, or unreachable. */
  function ValidateIpRun(ip: Option<string>, env: Env): (r: Run<bool>)
    ensures r.outcome.Returned?
    ensures r.outcome.value <==> NotBlank(ip) && env.isIpv4(ip.value) && env.ok(Command(ProbeCommand(ip.value)))
  {
    if !NotBlank(ip) then Run(Returned(false), [])
    else if !env.isIpv4(ip.value) then Run(Returned(false), [SetStatus(Blocked, MSG_INVALID_IP)])
    else
      var probe := Command(ProbeCommand(ip.value));
      if env.ok(probe) then Run(Returned(true), [probe])
      else Run(Returned(false), [probe, SetStatus(Blocked, MSG_UNREACHABLE)])
  }

  /** An unset, empty or all-white-space address is rejected silently: no probe, no status. */
  lemma ValidateIpBlank(ip: Option<string>, env: Env)
    requires ip.None? || AllSpace(ip.value)
    ensures ValidateIpRun(ip, env) == Run(Returned(false), [])
  {
    if ip.Some? {
      StripEmptyIffBlank(ip.value);
    }
  }

  /** A non-blank address that is not IPv4 is reported as invalid and never probed. */
  lemma ValidateIpMalformed(ip: string, env: Env)
    requires !AllSpace(ip) && !env.isIpv4(ip)
    ensures ValidateIpRun(Some(ip), env) == Run(Returned(false), [SetStatus(Blocked, MSG_INVALID_IP)])
  {
    StripEmptyIffBlank(ip);
  }

  /** A well-formed address is accepted exactly when the probe of port 8781 succeeds;
      a failed probe is reported as an unreachable appliance. */
  lemma ValidateIpProbe(ip: string, env: Env)
    requires !AllSpace(ip) && env.isIpv4(ip)
    ensures var probe := Command(ProbeCommand(ip));
      ValidateIpRun(Some(ip), env) ==
        if env.ok(probe) then Run(Returned(true), [probe])
        else Run(Returned(false), [probe, SetStatus(Blocked, MSG_UNREACHABLE)])
  {
    StripEmptyIffBlank(ip);
  }

  /** What netaddr.valid_ipv4 is known to answer for the two addresses the charm's
      tests use. */
  predicate Ipv4Pinned(isIpv4: string -> bool)
  {
    isIpv4("1.2.3.4") && !isIpv4("1.2.3.X")
  }

  /** `validate_ip('1.2.3.X')` is False without a probe; `validate_ip('1.2.3.4')` is
      True when the probe succeeds. */
  lemma ValidateIpExamples(env: Env)
    requires Ipv4Pinned(env.isIpv4)
    ensures ValidateIpRun(Some("1.2.3.X"), env) == Run(Returned(false), [SetStatus(Blocked, MSG_INVALID_IP)])
    ensures env.ok(Command(ProbeCommand("1.2.3.4"))) ==>
              ValidateIpRun(Some("1.2.3.4"), env) == Run(Returned(true), [Command(ProbeCommand("1.2.3.4"))])
  {
    assert !IsSpace("1.2.3.X"[0]);
    assert !IsSpace("1.2.3.4"[0]);
    ValidateIpMalformed("1.2.3.X", env);
    ValidateIpProbe("1.2.3.4", env);
  }

  // ---------------------------------------------------------------------------
  // validate_nfs

  /** charmhelpers' filter_missing_packages which, despite its name, returns the
      packages of `names` that are installed. */
  function FilterMissingPackages(names: seq<string>, installed: set<string>): (present: seq<string>)
    ensures forall n :: n in present <==> n in names && n in installed
  {
    if names == [] then []
    else (if names[0] in installed then [names[0]] else []) + FilterMissingPackages(names[1..], installed)
  }

  const NFS_COMMON_INSTALL := AptInstall(["nfs-common"], [])
  const DATA_DIR_MKDIR := MakeDir(TV_DATA_DIR, DM_EXT_USR, DM_EXT_GRP, DIR_PERMS)

  function NfsMount(device: string): Effect
  {
    Mount(device, TV_DATA_DIR, "nfs")
  }

  /** Dry-run validation of the NFS backup target: install `nfs-common` when none
      of it is installed, then mount the configured share on the data directory
      and unmount it again. */
  function ValidateNfsRun(env: Env): Run<bool>
  {
    var device := env.config.nfsShares;
    var pre := if FilterMissingPackages(["nfs-common"], env.installed) == [] then [NFS_COMMON_INSTALL] else [];
    if pre != [] && !env.ok(NFS_COMMON_INSTALL) then Run(Raised, pre)
    else if !Truthy(device) then Run(Returned(false), pre + [SetStatus(Blocked, MSG_NO_NFS)])
    else if !env.ok(DATA_DIR_MKDIR) then Run(Raised, pre + [DATA_DIR_MKDIR])
    else if !env.ok(NfsMount(device.value)) then
      Run(Returned(false), pre + [DATA_DIR_MKDIR, NfsMount(device.value), SetStatus(Blocked, MSG_NFS_MOUNT)])
    else Run(Returned(true), pre + [DATA_DIR_MKDIR, NfsMount(device.value), Umount(TV_DATA_DIR)])
  }

  method ValidateNfs(host: Machine, env: Env) returns (r: Outcome<bool>)
    modifies host
    ensures host.log == old(host.log) + ValidateNfsRun(env).effects
    ensures r == ValidateNfsRun(env).outcome
  {
    var device := env.config.nfsShares;
    if FilterMissingPackages(["nfs-common"], env.installed) == [] {
      var installed := host.Call(NFS_COMMON_INSTALL, env);
      if !installed {
        return Raised;
      }
    }
    if !Truthy(device) {
      host.Record(SetStatus(Blocked, MSG_NO_NFS));
      return Returned(false);
    }
    var made := host.Call(DATA_DIR_MKDIR, env);
    if !made {
      return Raised;
    }
    var mounted := host.Call(NfsMount(device.value), env);
    if !mounted {
      host.Record(SetStatus(Blocked, MSG_NFS_MOUNT));
      return Returned(false);
    }
    host.Record(Umount(TV_DATA_DIR));
    return Returned(true);
  }

  /** `nfs-common` is installed exactly when it is missing, and left alone when present. */
  lemma NfsCommonInstalledIffAbsent(env: Env)
    ensures NFS_COMMON_INSTALL in ValidateNfsRun(env).effects <==> "nfs-common" !in env.installed
  {
    var present := FilterMissingPackages(["nfs-common"], env.installed);
    assert present == [] <==> "nfs-common" !in env.installed by {
      if "nfs-common" in env.installed {
        assert "nfs-common" in present;
      }
      if present != [] {
        assert present[0] in present;
      }
    }
  }

  predicate MountAttempted(effects: seq<Effect>)
  {
    exists i :: 0 <= i < |effects| && effects[i].Mount?
  }

  /** Empty `nfs-shares`: no mount is attempted, and unless installing `nfs-common`
      raised, the routine reports the missing configuration and returns False. */
  lemma NfsEmptyShares(env: Env)
    requires !Truthy(env.config.nfsShares)
    ensures var r := ValidateNfsRun(env);
      !MountAttempted(r.effects) &&
      (r.outcome.Raised? || (r.outcome == Returned(false) && r.effects[|r.effects| - 1] == SetStatus(Blocked, MSG_NO_NFS)))
  {
  }

  /** True only after a successful mount of the configured share, and then the data
      directory has been unmounted as the routine's last call. */
  lemma NfsTrueMeansMountedThenUnmounted(env: Env)
    requires ValidateNfsRun(env).outcome == Returned(true)
    ensures var r := ValidateNfsRun(env);
      Truthy(env.config.nfsShares) && env.ok(NfsMount(env.config.nfsShares.value)) &&
      |r.effects| >= 2 && r.effects[|r.effects| - 2] == NfsMount(env.config.nfsShares.value) &&
      r.effects[|r.effects| - 1] == Umount(TV_DATA_DIR)
  {
  }

  /** The data directory is unmounted exactly when the mount succeeded. */
  lemma NfsUnmountIffMounted(env: Env)
    ensures Umount(TV_DATA_DIR) in ValidateNfsRun(env).effects <==>
              Truthy(env.config.nfsShares) && NfsMount(env.config.nfsShares.value) in ValidateNfsRun(env).effects &&
              env.ok(NfsMount(env.config.nfsShares.value))
  {
  }

  /** A mount that fails is reported as a blocked status and returns False. */
  lemma NfsMountFailure(env: Env)
    requires Truthy(env.config.nfsShares)
    requires NfsMount(env.config.nfsShares.value) in ValidateNfsRun(env).effects
    requires !env.ok(NfsMount(env.config.nfsShares.value))
    ensures var r := ValidateNfsRun(env);
      r.outcome == Returned(false) && r.effects[|r.effects| - 1] == SetStatus(Blocked, MSG_NFS_MOUNT)
  {
  }

  // ---------------------------------------------------------------------------
  // install_plugin

  function RepoLine(ip: Option<string>): string
  {
    "deb http://" + PyStr(ip) + ":8085 deb-repo/"
  }

  const CONTEGO_INSTALL := AptInstall([CONTEGO], ["--allow-unauthenticated"])

  /** Add the appliance's package repository, then (inside a `try`) update and
      install the plugin package; `ver` and `venv` are accepted and not used. */
  function InstallPluginRun(env: Env, ip: Option<string>, ver: string, venv: string): Run<bool>
  {
    var source := AddSource(RepoLine(ip));
    if !env.ok(source) then Run(Raised, [source])
    else
      var body := UntilRaise([AptUpdate, CONTEGO_INSTALL], env.ok);
      if Passed(body) then Run(Returned(true), [source] + body.effects + [SetStatus(Maintenance, MSG_STARTING)])
      else Run(Returned(false), [source] + body.effects)
  }

  method InstallPlugin(host: Machine, env: Env, ip: Option<string>, ver: string, venv: string) returns (r: Outcome<bool>)
    modifies host
    ensures host.log == old(host.log) + InstallPluginRun(env, ip, ver, venv).effects
    ensures r == InstallPluginRun(env, ip, ver, venv).outcome
  {
    var added := host.Call(AddSource(RepoLine(ip)), env);
    if !added {
      return Raised;
    }
    var updated := host.Call(AptUpdate, env);
    if !updated {
      assert FirstRaise([AptUpdate, CONTEGO_INSTALL], env.ok) == 0;
      return Returned(false);
    }
    var installed := host.Call(CONTEGO_INSTALL, env);
    if !installed {
      assert FirstRaise([AptUpdate, CONTEGO_INSTALL], env.ok) == 1;
      return Returned(false);
    }
    host.Record(SetStatus(Maintenance, MSG_STARTING));
    return Returned(true);
  }

  /** install_plugin reports `('maintenance', 'Starting')` exactly when it returns
      True, and that is its only status; a failure inside the `try` returns False. */
  lemma InstallPluginStatus(env: Env, ip: Option<string>, ver: string, venv: string)
    ensures var r := InstallPluginRun(env, ip, ver, venv);
      (r.outcome == Returned(true) <==> SetStatus(Maintenance, MSG_STARTING) in r.effects) &&
      (forall i :: 0 <= i < |r.effects| && IsStatus(r.effects[i]) ==> r.effects[i] == SetStatus(Maintenance, MSG_STARTING)) &&
      (r.outcome == Returned(true) <==> env.ok(AddSource(RepoLine(ip))) && env.ok(AptUpdate) && env.ok(CONTEGO_INSTALL)) &&
      (r.outcome == Raised <==> !env.ok(AddSource(RepoLine(ip))))
  {
    var source := AddSource(RepoLine(ip));
    var r := InstallPluginRun(env, ip, ver, venv);
    if !env.ok(source) {
      assert r.effects == [source];
    } else if !env.ok(AptUpdate) {
      assert FirstRaise([AptUpdate, CONTEGO_INSTALL], env.ok) == 0;
      assert r.effects == [source, AptUpdate];
    } else if !env.ok(CONTEGO_INSTALL) {
      assert FirstRaise([AptUpdate, CONTEGO_INSTALL], env.ok) == 1;
      assert r.effects == [source, AptUpdate, CONTEGO_INSTALL];
    } else {
      assert r.effects == [source, AptUpdate, CONTEGO_INSTALL, SetStatus(Maintenance, MSG_STARTING)];
    }
  }

  /** The charm's test: with every call succeeding, `install_plugin('1.2.3.4',
      'version', 'venv')` returns True having set the status once, to `Starting`. */
  lemma InstallPluginAllSucceed(env: Env)
    requires forall e :: env.ok(e)
    ensures var r := InstallPluginRun(env, Some("1.2.3.4"), "version", "venv");
      r.outcome == Returned(true) &&
      r.effects == [AddSource("deb http://1.2.3.4:8085 deb-repo/"), AptUpdate, CONTEGO_INSTALL, SetStatus(Maintenance, MSG_STARTING)]
  {
    assert RepoLine(Some("1.2.3.4")) == "deb http://1.2.3.4:8085 deb-repo/";
  }

  // ---------------------------------------------------------------------------
  // create_virt_env

  const HOME_MKDIR := MakeDir(TVAULT_HOME, DM_EXT_USR, DM_EXT_GRP, DIR_PERMS)
  const PKGS_COMMAND := ["/usr/bin/python", "files/trilio/get_pkgs.py"]

  function VirtEnvUrl(ip: Option<string>): string
  {
    "http://" + PyStr(ip) + ":8081/packages/queens_ubuntu/tvault-contego-virtenv.tar.gz"
  }

  /** The `try` that replaces the virtual environment with the appliance's archive. */
  function FetchVirtEnvCalls(ip: Option<string>): seq<Effect>
  {
    [RemoveTree(TVAULT_VIRTENV_PATH), FetchArchive(VirtEnvUrl(ip), TVAULT_HOME)]
  }

  /** The helper's output lines, `check_output(...).decode().strip().split('\n')`. */
  function HelperPaths(env: Env): seq<string>
  {
    Split(Strip(env.stdout(PKGS_COMMAND)), '\n')
  }

  /** After the version lookup: replace the virtual environment with the
      appliance's archive, ask the helper where the runtime libraries are,
      install the plugin package and link the libraries into the environment.
      Linking indexes the helper's first four lines and raises with fewer. */
  function ReplaceVirtEnvRun(env: Env, latest: string): Run<bool>
  {
    var ip := env.config.triliovaultIp;
    var fetch := UntilRaise(FetchVirtEnvCalls(ip), env.ok);
    if !Passed(fetch) then Run(Returned(false), fetch.effects + [SetStatus(Blocked, MSG_VIRTENV)])
    else
      var mid := fetch.effects + [Command(PKGS_COMMAND)];
      if !env.ok(Command(PKGS_COMMAND)) then Run(Returned(false), mid)
      else
        var plugin := InstallPluginRun(env, ip, latest, "/usr");
        if !Passed(plugin) then Run(plugin.outcome, mid + plugin.effects)
        else
          var link := LinkRuntime(HelperPaths(env));
          Run(if env.ok(link) && |HelperPaths(env)| >= 4 then Returned(true) else Raised,
              mid + plugin.effects + [link])
  }

  method ReplaceVirtEnv(host: Machine, env: Env, latest: string) returns (r: Outcome<bool>)
    modifies host
    ensures host.log == old(host.log) + ReplaceVirtEnvRun(env, latest).effects
    ensures r == ReplaceVirtEnvRun(env, latest).outcome
  {
    var ip := env.config.triliovaultIp;
    ghost var fetch := UntilRaise(FetchVirtEnvCalls(ip), env.ok);
    var removed := host.Call(RemoveTree(TVAULT_VIRTENV_PATH), env);
    var fetched := false;
    if removed {
      fetched := host.Call(FetchArchive(VirtEnvUrl(ip), TVAULT_HOME), env);
    }
    if !fetched {
      assert FirstRaise(FetchVirtEnvCalls(ip), env.ok) == if removed then 1 else 0;
      assert host.log == old(host.log) + fetch.effects;
      host.Record(SetStatus(Blocked, MSG_VIRTENV));
      Assoc(old(host.log), fetch.effects, [SetStatus(Blocked, MSG_VIRTENV)]);
      return Returned(false);
    }
    assert host.log == old(host.log) + fetch.effects;
    var listed := host.Call(Command(PKGS_COMMAND), env);
    Assoc(old(host.log), fetch.effects, [Command(PKGS_COMMAND)]);
    ghost var mid := fetch.effects + [Command(PKGS_COMMAND)];
    if !listed {
      return Returned(false);
    }
    var paths := HelperPaths(env);
    ghost var plugin := InstallPluginRun(env, ip, latest, "/usr");
    var installed := InstallPlugin(host, env, ip, latest, "/usr");
    Assoc(old(host.log), mid, plugin.effects);
    if installed != Returned(true) {
      return installed;
    }
    var linked := host.Call(LinkRuntime(paths), env);
    Assoc(old(host.log), mid + plugin.effects, [LinkRuntime(paths)]);
    if !linked || |paths| < 4 {
      return Raised;
    }
    return Returned(true);
  }

  /** Provision the plugin's virtual environment and install the plugin package.
      The version found is compared with `dm_ver`, which is always None, so the
      "already installed" return is never taken. */
  function VirtEnvRun(env: Env): Run<bool>
  {
    if !env.ok(HOME_MKDIR) then Run(Raised, [HOME_MKDIR])
    else
      var ver := NewVersionRun(env, CONTEGO);
      var head := [HOME_MKDIR] + ver.effects;
      match ver.outcome
      case Raised => Run(Raised, head)
      case Returned(latest) =>
        var dmVer: Option<string> := None;
        if dmVer == Some(latest) then Run(Returned(true), head)
        else
          var rest := ReplaceVirtEnvRun(env, latest);
          Run(rest.outcome, head + rest.effects)
  }

  method CreateVirtEnv(host: Machine, env: Env) returns (r: Outcome<bool>)
    modifies host
    ensures host.log == old(host.log) + VirtEnvRun(env).effects
    ensures r == VirtEnvRun(env).outcome
  {
    var dmVer: Option<string> := None;
    var made := host.Call(HOME_MKDIR, env);
    if !made {
      return Raised;
    }
    ghost var ver := NewVersionRun(env, CONTEGO);
    var latest := GetNewVersion(host, env, CONTEGO);
    Assoc(old(host.log), [HOME_MKDIR], ver.effects);
    if latest.Raised? {
      return Raised;
    }
    if dmVer == Some(latest.value) {
      return Returned(true);
    }
    ghost var rest := ReplaceVirtEnvRun(env, latest.value);
    r := ReplaceVirtEnv(host, env, latest.value);
    Assoc(old(host.log), [HOME_MKDIR] + ver.effects, rest.effects);
  }

  /** Replacing the environment always starts by removing the old one, and ends
      in True only after the archive was fetched, the plugin package installed
      and, as the very last call, the libraries linked. */
  lemma ReplaceVirtEnvSteps(env: Env, latest: string)
    ensures var r := ReplaceVirtEnvRun(env, latest);
      |r.effects| >= 1 && r.effects[0] == RemoveTree(TVAULT_VIRTENV_PATH) &&
      (r.outcome == Returned(true) ==>
         FetchArchive(VirtEnvUrl(env.config.triliovaultIp), TVAULT_HOME) in r.effects &&
         CONTEGO_INSTALL in r.effects &&
         r.effects[|r.effects| - 1] == LinkRuntime(HelperPaths(env)))
  {
    var ip := env.config.triliovaultIp;
    var rest := ReplaceVirtEnvRun(env, latest);
    var fetch := UntilRaise(FetchVirtEnvCalls(ip), env.ok);
    assert fetch.effects[0] == RemoveTree(TVAULT_VIRTENV_PATH);
    assert rest.effects[0] == RemoveTree(TVAULT_VIRTENV_PATH);
    if rest.outcome == Returned(true) {
      var plugin := InstallPluginRun(env, ip, latest, "/usr");
      assert fetch.effects == FetchVirtEnvCalls(ip);
      assert plugin.effects[2] == CONTEGO_INSTALL;
      var mid := fetch.effects + [Command(PKGS_COMMAND)] + plugin.effects;
      assert rest.effects == mid + [LinkRuntime(HelperPaths(env))];
      assert mid[1] == FetchArchive(VirtEnvUrl(ip), TVAULT_HOME);
      assert mid[3 + 2] == CONTEGO_INSTALL;
    }
  }

  /** The "already installed" short cut is dead: whenever the version lookup
      succeeds the old environment is removed, and create_virt_env returns True
      only after fetching the archive, installing the plugin package and linking
      its libraries as its last call. */
  lemma VirtEnvAlwaysReprovisions(env: Env)
    ensures NewVersionRun(env, CONTEGO).outcome.Returned? && env.ok(HOME_MKDIR) ==>
              RemoveTree(TVAULT_VIRTENV_PATH) in VirtEnvRun(env).effects
    ensures var r := VirtEnvRun(env);
      r.outcome == Returned(true) ==>
        FetchArchive(VirtEnvUrl(env.config.triliovaultIp), TVAULT_HOME) in r.effects &&
        CONTEGO_INSTALL in r.effects && r.effects[|r.effects| - 1] == LinkRuntime(HelperPaths(env))
  {
    var ver := NewVersionRun(env, CONTEGO);
    if env.ok(HOME_MKDIR) && ver.outcome.Returned? {
      var rest := ReplaceVirtEnvRun(env, ver.outcome.value);
      ReplaceVirtEnvSteps(env, ver.outcome.value);
      var head := [HOME_MKDIR] + ver.effects;
      assert VirtEnvRun(env) == Run(rest.outcome, head + rest.effects);
      assert (head + rest.effects)[|head|] == RemoveTree(TVAULT_VIRTENV_PATH);
    }
  }

  // ---------------------------------------------------------------------------
  // create_conf

  function ConfValue(o: Option<string>): Value
  {
    if o.None? then Null else Text(o.value)
  }

  /** The value stored under `key` in section `name`, if any. */
  function Lookup(conf: seq<Section>, name: string, key: string): Option<Value>
  {
    if conf == [] then None
    else if conf[0].name == name then LookupEntry(conf[0].entries, key)
    else Lookup(conf[1..], name, key)
  }

  function LookupEntry(entries: seq<(string, Value)>, key: string): Option<Value>
  {
    if entries == [] then None
    else if entries[0].0 == key then Some(entries[0].1)
    else LookupEntry(entries[1..], key)
  }

  /** The value of the first entry named `key` is what the lookup finds. */
  lemma {:induction false} LookupEntryAt(entries: seq<(string, Value)>, i: nat, key: string)
    requires i < |entries| && entries[i].0 == key
    requires forall j :: 0 <= j < i ==> entries[j].0 != key
    ensures LookupEntry(entries, key) == Some(entries[i].1)
  {
    if i > 0 {
      LookupEntryAt(entries[1..], i - 1, key);
    }
  }

  /** Lookup of the `i`-th entry of the `s`-th section, when neither name occurs earlier. */
  lemma {:induction false} LookupAt(conf: seq<Section>, s: nat, name: string, i: nat, key: string)
    requires s < |conf| && conf[s].name == name
    requires forall t :: 0 <= t < s ==> conf[t].name != name
    requires i < |conf[s].entries| && conf[s].entries[i].0 == key
    requires forall j :: 0 <= j < i ==> conf[s].entries[j].0 != key
    ensures Lookup(conf, name, key) == Some(conf[s].entries[i].1)
  {
    if s > 0 {
      LookupAt(conf[1..], s - 1, name, i, key);
    } else {
      LookupEntryAt(conf[0].entries, i, key);
    }
  }

  /** The sections of /etc/tvault-contego/tvault-contego.conf. */
  function DatamoverConf(cfg: Config): (conf: seq<Section>)
    ensures |conf| == 3 && conf[0].name == "DEFAULT" && conf[1].name == "contego_sys_admin" && conf[2].name == "conductor"
    ensures |conf[0].entries| == 11 && |conf[1].entries| == 1 && |conf[2].entries| == 1
  {
    [Section("DEFAULT", [
       ("vault_storage_nfs_export", ConfValue(cfg.nfsShares)),
       ("vault_storage_nfs_options", ConfValue(cfg.nfsOptions)),
       ("vault_storage_type", Text("nfs")),
       ("vault_data_directory_old", Text(TV_DATA_DIR_OLD)),
       ("vault_data_directory", Text(TV_DATA_DIR)),
       ("log_file", Text("/var/log/nova/tvault-contego.log")),
       ("debug", Flag(false)),
       ("verbose", Flag(true)),
       ("max_uploads_pending", Number(3)),
       ("max_commit_pending", Number(3)),
       ("qemu_agent_ping_timeout", Number(600))]),
     Section("contego_sys_admin", [("helper_command", Text("sudo /usr/bin/privsep-helper"))]),
     Section("conductor", [("use_local", Flag(true))])]
  }

  /** The NFS export and mount options are copied verbatim from the charm
      configuration (an unset option is written as `None`), and the rendered
      file depends on nothing else in it. */
  lemma DatamoverConfNfs(cfg: Config, other: Config)
    ensures var conf := DatamoverConf(cfg);
      Lookup(conf, "DEFAULT", "vault_storage_nfs_export") == Some(ConfValue(cfg.nfsShares)) &&
      Lookup(conf, "DEFAULT", "vault_storage_nfs_options") == Some(ConfValue(cfg.nfsOptions))
    ensures cfg.nfsShares == other.nfsShares && cfg.nfsOptions == other.nfsOptions ==>
              DatamoverConf(cfg) == DatamoverConf(other)
  {
    var conf := DatamoverConf(cfg);
    LookupAt(conf, 0, "DEFAULT", 0, "vault_storage_nfs_export");
    LookupAt(conf, 0, "DEFAULT", 1, "vault_storage_nfs_options");
  }

  /** Fixed DEFAULT values: NFS storage and the two data directories. */
  lemma DatamoverConfStorage(cfg: Config)
    ensures var conf := DatamoverConf(cfg);
      Lookup(conf, "DEFAULT", "vault_storage_type") == Some(Text("nfs")) &&
      Lookup(conf, "DEFAULT", "vault_data_directory_old") == Some(Text(TV_DATA_DIR_OLD)) &&
      Lookup(conf, "DEFAULT", "vault_data_directory") == Some(Text(TV_DATA_DIR))
  {
    var conf := DatamoverConf(cfg);
    LookupAt(conf, 0, "DEFAULT", 2, "vault_storage_type");
    LookupAt(conf, 0, "DEFAULT", 3, "vault_data_directory_old");
    LookupAt(conf, 0, "DEFAULT", 4, "vault_data_directory");
  }

  /** Fixed DEFAULT values: the log file, debugging off, verbose logging on. */
  lemma DatamoverConfLogging(cfg: Config)
    ensures var conf := DatamoverConf(cfg);
      Lookup(conf, "DEFAULT", "log_file") == Some(Text("/var/log/nova/tvault-contego.log")) &&
      Lookup(conf, "DEFAULT", "debug") == Some(Flag(false)) &&
      Lookup(conf, "DEFAULT", "verbose") == Some(Flag(true))
  {
    var conf := DatamoverConf(cfg);
    LookupAt(conf, 0, "DEFAULT", 5, "log_file");
    LookupAt(conf, 0, "DEFAULT", 6, "debug");
    LookupAt(conf, 0, "DEFAULT", 7, "verbose");
  }

  /** Fixed DEFAULT values: three pending uploads, three pending commits, a 600-second guest-agent timeout. */
  lemma DatamoverConfLimits(cfg: Config)
    ensures var conf := DatamoverConf(cfg);
      Lookup(conf, "DEFAULT", "max_uploads_pending") == Some(Number(3)) &&
      Lookup(conf, "DEFAULT", "max_commit_pending") == Some(Number(3)) &&
      Lookup(conf, "DEFAULT", "qemu_agent_ping_timeout") == Some(Number(600))
  {
    var conf := DatamoverConf(cfg);
    LookupAt(conf, 0, "DEFAULT", 8, "max_uploads_pending");
    LookupAt(conf, 0, "DEFAULT", 9, "max_commit_pending");
    LookupAt(conf, 0, "DEFAULT", 10, "qemu_agent_ping_timeout");
  }

  /** The privilege helper and the conductor switch of the other two sections. */
  lemma DatamoverConfSections(cfg: Config)
    ensures var conf := DatamoverConf(cfg);
      Lookup(conf, "contego_sys_admin", "helper_command") == Some(Text("sudo /usr/bin/privsep-helper")) &&
      Lookup(conf, "conductor", "use_local") == Some(Flag(true))
  {
    var conf := DatamoverConf(cfg);
    LookupAt(conf, 1, "contego_sys_admin", 0, "helper_command");
    LookupAt(conf, 2, "conductor", 0, "use_local");
  }

  function ConfWrite(env: Env): Effect
  {
    WriteConfig(DATAMOVER_CONF, DatamoverConf(env.config))
  }

  /** Write the configuration file; True unless the write raises (the blocked
      branch after the `with` block is never reached). */
  function CreateConfRun(env: Env): (r: Run<bool>)
    ensures r.outcome != Returned(false)
    ensures r.effects == [ConfWrite(env)]
  {
    Run(if env.ok(ConfWrite(env)) then Returned(true) else Raised, [ConfWrite(env)])
  }

  method CreateConf(host: Machine, env: Env) returns (r: Outcome<bool>)
    modifies host
    ensures host.log == old(host.log) + CreateConfRun(env).effects
    ensures r == CreateConfRun(env).outcome
  {
    var written := host.Call(ConfWrite(env), env);
    if !written {
      return Raised;
    }
    return Returned(true);
  }

  // ---------------------------------------------------------------------------
  // create_service_file

  const NOVA_CONF_COMMAND := [TVAULT_VIRTENV_PATH + "/bin/python", "files/trilio/get_nova_conf.py"]
  const CONF_DIR_CHECK := Command(["ls", NOVA_CONF_DIR])
  const EXEC_PREFIX := "/usr/bin/python /usr/bin/tvault-contego "
  /** The seventeen blanks the backslash-continued string literal carries after the arguments. */
  const EXEC_TRAILER := "                 "

  function ExecTail(confDirPresent: bool): string
  {
    " --config-file=" + DATAMOVER_CONF +
    (if confDirPresent then " --config-dir=" + NOVA_CONF_DIR else "") +
    EXEC_TRAILER
  }

  /** The service's ExecStart: the interpreter and binary, the nova arguments the
      helper printed, the plugin's configuration file, nova's configuration
      directory when it exists, and the trailing blanks. */
  function ExecStart(novaArgs: string, confDirPresent: bool): string
  {
    EXEC_PREFIX + novaArgs + ExecTail(confDirPresent)
  }

  lemma ExecTailSingleLine(confDirPresent: bool)
    ensures '\n' !in ExecTail(confDirPresent)
  {
    var dir := if confDirPresent then " --config-dir=" + NOVA_CONF_DIR else "";
    assert ExecTail(confDirPresent) == (" --config-file=" + DATAMOVER_CONF) + dir + EXEC_TRAILER;
    assert '\n' !in " --config-file=" + DATAMOVER_CONF;
    assert '\n' !in dir;
    assert '\n' !in EXEC_TRAILER;
  }

  /** ExecStart is one line whatever the helper prints: only its first line is used. */
  lemma ExecStartSingleLine(output: string, confDirPresent: bool)
    ensures '\n' !in ExecStart(FirstLine(output), confDirPresent)
  {
    ExecTailSingleLine(confDirPresent);
    assert '\n' !in EXEC_PREFIX;
  }

  /** The sections of /etc/systemd/system/tvault-contego.service (keys keep their case). */
  function ServiceUnit(execStart: string): (unit: seq<Section>)
    ensures |unit| == 3 && unit[0].name == "Unit" && unit[1].name == "Service" && unit[2].name == "Install"
    ensures |unit[0].entries| == 2 && |unit[1].entries| == 7 && |unit[2].entries| == 1
  {
    [Section("Unit", [
       ("Description", Text("TrilioVault DataMover")),
       ("After", Text("openstack-nova-compute.service"))]),
     Section("Service", [
       ("User", Text(DM_EXT_USR)),
       ("Group", Text(DM_EXT_GRP)),
       ("Type", Text("simple")),
       ("ExecStart", Text(execStart)),
       ("TimeoutStopSec", Number(20)),
       ("KillMode", Text("process")),
       ("Restart", Text("always"))]),
     Section("Install", [("WantedBy", Text("multi-user.target"))])]
  }

  /** Every key of the unit is fixed except ExecStart, which carries the command line. */
  lemma ServiceUnitContents(execStart: string)
    ensures var unit := ServiceUnit(execStart);
      Lookup(unit, "Unit", "Description") == Some(Text("TrilioVault DataMover")) &&
      Lookup(unit, "Unit", "After") == Some(Text("openstack-nova-compute.service")) &&
      Lookup(unit, "Service", "User") == Some(Text("nova")) &&
      Lookup(unit, "Service", "Group") == Some(Text("nova")) &&
      Lookup(unit, "Service", "Type") == Some(Text("simple")) &&
      Lookup(unit, "Service", "ExecStart") == Some(Text(execStart)) &&
      Lookup(unit, "Service", "TimeoutStopSec") == Some(Number(20)) &&
      Lookup(unit, "Service", "KillMode") == Some(Text("process")) &&
      Lookup(unit, "Service", "Restart") == Some(Text("always")) &&
      Lookup(unit, "Install", "WantedBy") == Some(Text("multi-user.target"))
  {
    var unit := ServiceUnit(execStart);
    LookupAt(unit, 0, "Unit", 0, "Description");
    LookupAt(unit, 0, "Unit", 1, "After");
    LookupAt(unit, 1, "Service", 0, "User");
    LookupAt(unit, 1, "Service", 1, "Group");
    LookupAt(unit, 1, "Service", 2, "Type");
    LookupAt(unit, 1, "Service", 3, "ExecStart");
    LookupAt(unit, 1, "Service", 4, "TimeoutStopSec");
    LookupAt(unit, 1, "Service", 5, "KillMode");
    LookupAt(unit, 1, "Service", 6, "Restart");
    LookupAt(unit, 2, "Install", 0, "WantedBy");
  }

  function UnitWrite(env: Env): Effect
  {
    WriteConfig(SERVICE_FILE, ServiceUnit(ExecStart(FirstLine(env.stdout(NOVA_CONF_COMMAND)), env.ok(CONF_DIR_CHECK))))
  }

  /** Ask the helper for nova's arguments, look for nova's configuration directory,
      write the unit file. True unless a call raises. */
  function ServiceFileRun(env: Env): (r: Run<bool>)
    ensures r.outcome != Returned(false)
  {
    if !env.ok(Command(NOVA_CONF_COMMAND)) then Run(Raised, [Command(NOVA_CONF_COMMAND)])
    else
      Run(if env.ok(UnitWrite(env)) then Returned(true) else Raised,
          [Command(NOVA_CONF_COMMAND), CONF_DIR_CHECK, UnitWrite(env)])
  }

  method CreateServiceFile(host: Machine, env: Env) returns (r: Outcome<bool>)
    modifies host
    ensures host.log == old(host.log) + ServiceFileRun(env).effects
    ensures r == ServiceFileRun(env).outcome
  {
    var ran := host.Call(Command(NOVA_CONF_COMMAND), env);
    if !ran {
      return Raised;
    }
    var configFiles := FirstLine(env.stdout(NOVA_CONF_COMMAND));
    var confDirPresent := host.Call(CONF_DIR_CHECK, env);
    var execStart := ExecStart(configFiles, confDirPresent);
    var written := host.Call(WriteConfig(SERVICE_FILE, ServiceUnit(execStart)), env);
    if !written {
      return Raised;
    }
    return Returned(true);
  }

  // ---------------------------------------------------------------------------
  // uninstall_plugin

  /** The calls of the `try` block before the mount points are read; any of them may raise. */
  const TEARDOWN_CALLS := [
    Command(["sudo", "systemctl", "disable", CONTEGO]),
    RemoveFile(SERVICE_FILE),
    Command(["sudo systemctl daemon-reload"]),
    RemoveTree(TVAULT_VIRTENV_PATH),
    RemoveFile("/etc/logrotate.d/tvault-contego"),
    RemoveFile(DATAMOVER_CONF),
    RemoveFile("/var/log/nova/tvault-contego.log")]

  /** `[mp[0] for mp in mounts() if TV_DATA_DIR in mp[0]]` */
  function MountPathsToUnmount(table: seq<(string, string)>): seq<string>
  {
    if table == [] then []
    else (if Contains(table[0].0, TV_DATA_DIR) then [table[0].0] else []) + MountPathsToUnmount(table[1..])
  }

  /** A mount point is unmounted exactly when its path contains the data directory. */
  lemma {:induction false} MountPathsMembership(table: seq<(string, string)>, p: string)
    ensures p in MountPathsToUnmount(table) <==>
              Contains(p, TV_DATA_DIR) && exists i :: 0 <= i < |table| && table[i].0 == p
  {
    if table != [] {
      MountPathsMembership(table[1..], p);
      if exists i :: 0 <= i < |table| && table[i].0 == p {
        var i :| 0 <= i < |table| && table[i].0 == p;
        if i > 0 {
          assert table[1..][i - 1].0 == p;
        }
      }
    }
  }

  /** The filter keeps the order of mounts(): filtering a concatenation is
      concatenating the filtered parts. */
  lemma {:induction false} MountPathsAppend(a: seq<(string, string)>, b: seq<(string, string)>)
    ensures MountPathsToUnmount(a + b) == MountPathsToUnmount(a) + MountPathsToUnmount(b)
  {
    if a == [] {
      assert a + b == b;
    } else {
      assert (a + b)[1..] == a[1..] + b;
      MountPathsAppend(a[1..], b);
    }
  }

  /** The polls of the object store and the sleeps between them, from the
      `retry`-th poll on: `while service_running(...) and retry_count < 3`. */
  function WaitCalls(ok: Effect -> bool, retry: nat): seq<Effect>
    requires retry <= MAX_RETRIES
    decreases MAX_RETRIES - retry, 1
  {
    [ServiceRunning(OBJECT_STORE, retry)] + WaitAfter(ok, retry)
  }

  /** What follows the `retry`-th poll: a sleep and the next poll while the object
      store is running and fewer than three sleeps were made, else nothing. */
  function WaitAfter(ok: Effect -> bool, retry: nat): seq<Effect>
    requires retry <= MAX_RETRIES
    decreases MAX_RETRIES - retry, 0
  {
    if ok(ServiceRunning(OBJECT_STORE, retry)) && retry < MAX_RETRIES then [Sleep(RETRY_SLEEP)] + WaitCalls(ok, retry + 1)
    else []
  }

  /** Lines 401-404: poll the object store, and while it runs sleep and poll
      again, at most three times. */
  method WaitForObjectStore(host: Machine, env: Env)
    modifies host
    ensures host.log == old(host.log) + WaitCalls(env.ok, 0)
  {
    var retryCount := 0;
    var running := host.Call(ServiceRunning(OBJECT_STORE, retryCount), env);
    while running && retryCount < MAX_RETRIES
      invariant 0 <= retryCount <= MAX_RETRIES
      invariant running == env.ok(ServiceRunning(OBJECT_STORE, retryCount))
      invariant host.log + WaitAfter(env.ok, retryCount) == old(host.log) + WaitCalls(env.ok, 0)
      decreases MAX_RETRIES - retryCount
    {
      ghost var before := host.log;
      retryCount := retryCount + 1;
      host.Record(Sleep(RETRY_SLEEP));
      running := host.Call(ServiceRunning(OBJECT_STORE, retryCount), env);
      ghost var after := WaitAfter(env.ok, retryCount);
      Assoc(before, [Sleep(RETRY_SLEEP)], [ServiceRunning(OBJECT_STORE, retryCount)] + after);
      Assoc(before + [Sleep(RETRY_SLEEP)], [ServiceRunning(OBJECT_STORE, retryCount)], after);
    }
    assert host.log + [] == host.log;
  }

  /** The wait alternates polls, numbered on from `retry`, with five-second
      sleeps, and ends with a poll: at most three sleeps and four polls in all. */
  lemma {:induction false} WaitLayout(ok: Effect -> bool, retry: nat)
    requires retry <= MAX_RETRIES
    ensures var w := WaitCalls(ok, retry);
      |w| % 2 == 1 && |w| <= 2 * (MAX_RETRIES - retry) + 1 &&
      forall i :: 0 <= i < |w| ==>
        w[i] == if i % 2 == 0 then ServiceRunning(OBJECT_STORE, retry + i / 2) else Sleep(RETRY_SLEEP)
    decreases MAX_RETRIES - retry
  {
    var poll := ServiceRunning(OBJECT_STORE, retry);
    if ok(poll) && retry < MAX_RETRIES {
      var rest := WaitCalls(ok, retry + 1);
      WaitLayout(ok, retry + 1);
      var w := WaitCalls(ok, retry);
      assert w == [poll] + ([Sleep(RETRY_SLEEP)] + rest);
      forall i | 2 <= i < |w|
        ensures w[i] == if i % 2 == 0 then ServiceRunning(OBJECT_STORE, retry + i / 2) else Sleep(RETRY_SLEEP)
      {
        assert w[i] == rest[i - 2];
        assert retry + 1 + (i - 2) / 2 == retry + i / 2;
        assert i % 2 == (i - 2) % 2;
      }
    }
  }

  /** The wait goes on while the object store is running and stops at the first
      poll that finds it stopped, or at the poll that follows the third sleep. */
  lemma {:induction false} WaitStops(ok: Effect -> bool, retry: nat)
    requires retry <= MAX_RETRIES
    ensures var w := WaitCalls(ok, retry);
      (forall i :: 0 <= i < |w| - 1 && w[i].ServiceRunning? ==> ok(w[i])) &&
      (!ok(w[|w| - 1]) || w[|w| - 1] == ServiceRunning(OBJECT_STORE, MAX_RETRIES))
    decreases MAX_RETRIES - retry
  {
    var poll := ServiceRunning(OBJECT_STORE, retry);
    var w := WaitCalls(ok, retry);
    if ok(poll) && retry < MAX_RETRIES {
      var rest := WaitCalls(ok, retry + 1);
      WaitStops(ok, retry + 1);
      assert w == [poll] + ([Sleep(RETRY_SLEEP)] + rest);
      forall i | 2 <= i < |w| - 1 && w[i].ServiceRunning? ensures ok(w[i]) {
        assert w[i] == rest[i - 2];
      }
      assert w[|w| - 1] == rest[|rest| - 1];
    } else {
      assert WaitAfter(ok, retry) == [];
      assert w == [poll];
    }
  }

  function Unmounts(paths: seq<string>): seq<Effect>
  {
    seq(|paths|, i requires 0 <= i < |paths| => Umount(paths[i]))
  }

  /** Stop and disable the service, remove its files and the virtual environment,
      wait for the object store to stop, unmount the data mounts, purge the
      package. Any exception inside the `try` makes it return False. */
  function UninstallRun(env: Env): Run<bool>
  {
    var pre := UntilRaise(TEARDOWN_CALLS, env.ok);
    if !Passed(pre) then Run(Returned(false), [ServiceStop(CONTEGO)] + pre.effects)
    else Run(Returned(true), [ServiceStop(CONTEGO)] + TEARDOWN_CALLS + WaitCalls(env.ok, 0) +
                             Unmounts(MountPathsToUnmount(env.mountTable)) + [AptPurge([CONTEGO])])
  }

  /** Lines 406-407: unmount each path, in order. */
  method UnmountAll(host: Machine, paths: seq<string>)
    modifies host
    ensures host.log == old(host.log) + Unmounts(paths)
  {
    for i := 0 to |paths|
      invariant host.log == old(host.log) + Unmounts(paths[..i])
    {
      ghost var before := host.log;
      host.Record(Umount(paths[i]));
      assert Unmounts(paths[..i + 1]) == Unmounts(paths[..i]) + [Umount(paths[i])];
      Assoc(old(host.log), Unmounts(paths[..i]), [Umount(paths[i])]);
    }
    assert paths[..|paths|] == paths;
  }

  method UninstallPlugin(host: Machine, env: Env) returns (ok: bool)
    modifies host
    ensures host.log == old(host.log) + UninstallRun(env).effects
    ensures Returned(ok) == UninstallRun(env).outcome
  {
    host.Record(ServiceStop(CONTEGO));
    ghost var pre := UntilRaise(TEARDOWN_CALLS, env.ok);
    var completed := Attempt(host, TEARDOWN_CALLS, env);
    Assoc(old(host.log), [ServiceStop(CONTEGO)], pre.effects);
    if !completed {
      return false;
    }
    var sortedList := MountPathsToUnmount(env.mountTable);
    ghost var head := [ServiceStop(CONTEGO)] + TEARDOWN_CALLS;
    WaitForObjectStore(host, env);
    Assoc(old(host.log), head, WaitCalls(env.ok, 0));
    UnmountAll(host, sortedList);
    Assoc(old(host.log), head + WaitCalls(env.ok, 0), Unmounts(sortedList));
    host.Record(AptPurge([CONTEGO]));
    Assoc(old(host.log), head + WaitCalls(env.ok, 0) + Unmounts(sortedList), [AptPurge([CONTEGO])]);
    return true;
  }

  /** The mount points named by the `Umount` calls among `effects`, in order. */
  function UmountTargets(effects: seq<Effect>): seq<string>
  {
    if effects == [] then []
    else (if effects[0].Umount? then [effects[0].mountPoint] else []) + UmountTargets(effects[1..])
  }

  lemma {:induction false} UmountTargetsAppend(a: seq<Effect>, b: seq<Effect>)
    ensures UmountTargets(a + b) == UmountTargets(a) + UmountTargets(b)
  {
    if a == [] {
      assert a + b == b;
    } else {
      assert (a + b)[1..] == a[1..] + b;
      UmountTargetsAppend(a[1..], b);
    }
  }

  lemma {:induction false} UmountTargetsOfUnmounts(paths: seq<string>)
    ensures UmountTargets(Unmounts(paths)) == paths
  {
    if paths != [] {
      assert Unmounts(paths)[1..] == Unmounts(paths[1..]);
      UmountTargetsOfUnmounts(paths[1..]);
    }
  }

  lemma {:induction false} UmountTargetsNone(effects: seq<Effect>)
    requires forall j :: 0 <= j < |effects| ==> !effects[j].Umount?
    ensures UmountTargets(effects) == []
  {
    if effects != [] {
      UmountTargetsNone(effects[1..]);
    }
  }

  /** A successful uninstall unmounts, in the order of mounts(), exactly the mount
      points whose path contains /var/triliovault-mounts, and nothing else; a
      failed one unmounts nothing. Either way it returns, never raises, and it
      returns True exactly when no teardown call raised. */
  lemma UninstallUnmounts(env: Env)
    ensures var r := UninstallRun(env);
      r.outcome.Returned? &&
      (r.outcome.value <==> forall i :: 0 <= i < |TEARDOWN_CALLS| ==> env.ok(TEARDOWN_CALLS[i])) &&
      UmountTargets(r.effects) == if r.outcome.value then MountPathsToUnmount(env.mountTable) else []
  {
    var r := UninstallRun(env);
    var pre := UntilRaise(TEARDOWN_CALLS, env.ok);
    var head := [ServiceStop(CONTEGO)] + pre.effects;
    assert forall j :: 0 <= j < |TEARDOWN_CALLS| ==> !TEARDOWN_CALLS[j].Umount?;
    UmountTargetsNone(head);
    if Passed(pre) {
      var paths := MountPathsToUnmount(env.mountTable);
      var wait := WaitCalls(env.ok, 0);
      WaitLayout(env.ok, 0);
      UmountTargetsNone(wait);
      UmountTargetsOfUnmounts(paths);
      UmountTargetsAppend(head, wait);
      UmountTargetsAppend(head + wait, Unmounts(paths));
      UmountTargetsAppend(head + wait + Unmounts(paths), [AptPurge([CONTEGO])]);
      assert r.effects == head + wait + Unmounts(paths) + [AptPurge([CONTEGO])];
    }
  }
}
