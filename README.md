# TrilioVault DataMover charm: a verified model of its lifecycle

This project models the Juju charm that deploys the TrilioVault DataMover
(`tvault-contego`) on an OpenStack compute node. It covers two source files:

- The reactive handlers (`src/reactive/trilio_data_mover_handlers.py`). The
  charm keeps a set of flags between hook dispatches, and each handler fires
  only when its guard holds:
  - `install_tvault_contego_plugin` runs eight checks in a fixed order and stops
    at the first that does not return True;
  - `config_changed` stops the service, revalidates NFS, rewrites the
    configuration and starts the service again;
  - the `stop` hook sets `stopping`;
  - `stop_tvault_contego_plugin` tears the plugin down.
- The routines they call (`src/lib/trilio/trilio_data_mover_utils.py`):
  `validate_ip`, `get_new_version`, `validate_nfs`, `create_virt_env`,
  `install_plugin`, `create_conf`, `create_service_file` and `uninstall_plugin`.

How the model is built:

- Every external call is an `Effect` appended to the log of a `Host.Machine`.
  This covers status updates, subprocesses, the package manager, the file
  system, mounts and services.
- What the world answers is a `Host.Env`: the charm options, the IPv4 check,
  whether each call completes, what each command prints, the installed
  packages, the mount table, and how the unmodelled steps end.
- A Python exception is the outcome `Raised`. One call of a routine is a `Run`:
  how it ended, plus the calls it made, in order.
- The unit's status is the last status set in the log (`Host.LastStatus`).
- Each imperative routine is a method. It is proved to make exactly the calls
  of a specification function (`…Run`) and to return that function's outcome.
  The lemmas state what the source promises about those functions.
- The handlers are methods of the class `DataMoverHandlers.DataMoverCharm`,
  which holds the flag set and the node.

Modules:

| module | file | contents |
|---|---|---|
| `Host` | host.dfy | effects, outcomes, the world, the node's log, the shown status |
| `Text` | text.dfy | `strip`, `split('\n')` with `Join` as its inverse, substring test, `'{}'.format` of an option |
| `PackageIndex` | package_index.dfy | the regular-expression version lookup of `get_new_version` |
| `Pipeline` | pipeline.dfy | the fail-fast chain of `if not step(): return` and the `try` block that stops at the first exception |
| `DataMoverUtils` | data_mover_utils.dfy | the utility routines |
| `DataMoverHandlers` | handlers.dfy | the handlers, their guards and flag updates |

What the code does that its own docstrings, comments and log messages do not
say. The model follows the code, and each point below is proved:

- **Version short-circuit.** The docstring of `create_virt_env`
  (`trilio_data_mover_utils.py:138-140`) says it checks whether the latest
  version is installed. `dm_ver` is set to `None` at line 147 and never
  changes, so the "already installed" return at lines 152-155 never runs. The
  environment is removed and fetched again on every install
  (`DataMoverUtils.VirtEnvAlwaysReprovisions`).
- **Restart after a failed NFS check.** `config_changed`
  (`trilio_data_mover_handlers.py:93-98`) starts the service again even when
  `validate_nfs` returned False. The configuration was not rewritten in that
  case (`DataMoverHandlers.ConfigChangedBracketed`,
  `DataMoverHandlers.ConfigRewrittenOnlyWhenValid`).
- **Teardown and `installed`.** After a successful uninstall, the teardown
  handler removes only `stopping` (`trilio_data_mover_handlers.py:112-115`). No
  handler clears `installed`, so the install handler never fires again on that
  unit (`DataMoverHandlers.InstalledStays`).
- **Exceptions and silent failures.**
  - Several failures return False without setting any status: a blank address,
    a failed helper command in `create_virt_env`, and a failed `install_plugin`.
  - Some errors are not caught anywhere, and they end the handler:
    - the `mkdir` calls of `validate_nfs` and `create_virt_env` (utils.py:96, 149);
    - the version lookup of `get_new_version` (utils.py:53-56);
    - the write of `create_conf` (utils.py:258-260);
    - the helper call and the write of `create_service_file` (utils.py:297-326);
    - the handler's own `systemctl` calls (handlers.py:78, 80).
  - Other errors are caught and become False: the `nc` probe of `validate_ip`,
    the archive fetch and the helper of `create_virt_env`, `install_plugin`'s
    `try`, and everything inside `uninstall_plugin`'s `try`.

  The model keeps both (`Raised`; `DataMoverHandlers.BlankIpKeepsInstalling`).
- **Dead blocked branches.** The blocked status after the `with` block of
  `create_conf` and of `create_service_file` (lines 262-263 and 328-329) can
  never be set: the block either returns True or raises. So these runs never
  return False (`DataMoverUtils.CreateConfRun`, `DataMoverUtils.ServiceFileRun`).
- **Version lookup drops a character.** `[:-1]` at line 56 removes the last
  character of the matched group. For the usual `<ver>.tar.gz` entry that
  character is the dot. For a directory-style entry `<ver>/` it is the last
  digit of the version (`PackageIndex.TarballEntry`, `PackageIndex.DirectoryEntry`).

## Model

| member | source | states |
|---|---|---|
| Host.LastStatus | src/reactive/trilio_data_mover_handlers.py:84 | the status the unit shows after a series of calls: the level and message of the last `status_set` among them, none before the first |
| Host.LastStatusSpec | src/reactive/trilio_data_mover_handlers.py:84 | no status is shown exactly when no call set one; otherwise some call set the shown status and no later call sets another |
| Text.Strip | src/lib/trilio/trilio_data_mover_utils.py:339 | `str.strip()`: the input without its leading and trailing runs of white space (what it removes is stated by `Text.StripLeftSpec` and `Text.StripRightSpec`) |
| Text.StripLeftSpec | src/lib/trilio/trilio_data_mover_utils.py:339 | `lstrip` removes a leading run of white space and nothing more; the result starts with a non-space or is empty |
| Text.StripRightSpec | src/lib/trilio/trilio_data_mover_utils.py:176 | `rstrip` removes a trailing run of white space and nothing more; the result ends with a non-space or is empty |
| Text.StripEmptyIffBlank | src/lib/trilio/trilio_data_mover_utils.py:339 | `ip.strip()` is empty exactly when `ip` is all white space (both directions) |
| Text.Split | src/lib/trilio/trilio_data_mover_utils.py:176 | `str.split(sep)`: the pieces between separators, in order (stated by `Text.SplitSpec` and `Text.JoinSplit`) |
| Text.SplitSpec | src/lib/trilio/trilio_data_mover_utils.py:176 | `split('\n')` yields at least one part and no part holds a line break |
| Text.JoinSplit | src/lib/trilio/trilio_data_mover_utils.py:176 | joining the parts of `split(sep)` with `sep` gives back the input, so splitting loses nothing |
| Text.FirstLine | src/lib/trilio/trilio_data_mover_utils.py:299 | `split('\n')[0]` is a prefix of the output with no line break, followed in the output by a line break unless it is all of it |
| PackageIndex.MatchesAt | src/lib/trilio/trilio_data_mover_utils.py:55 | the pattern `packages/<pkg>-\s*([\d.]+)` matches at a position: the literal part is there, then white space, then at least one digit or dot |
| PackageIndex.SkipSpace | src/lib/trilio/trilio_data_mover_utils.py:55 | greedy `\s*`: everything skipped is white space and the next character is not |
| PackageIndex.VersionEnd | src/lib/trilio/trilio_data_mover_utils.py:55 | greedy `[\d.]+`: everything consumed is a digit or a dot and the next character is not |
| PackageIndex.Group | src/lib/trilio/trilio_data_mover_utils.py:55 | group 1 of a match is non-empty and made of digits and dots only |
| PackageIndex.SearchFrom | src/lib/trilio/trilio_data_mover_utils.py:54-56 | `re.search` scanning: the position found matches and no earlier one does; no position found means none matches |
| PackageIndex.ParseVersion | src/lib/trilio/trilio_data_mover_utils.py:54-56 | `re.search(...).group(1)[:-1]`: raises when the pattern matches nowhere, else group 1 of the leftmost match without its last character (stated by `PackageIndex.ParseVersionSpec`) |
| PackageIndex.ParseVersionSpec | src/lib/trilio/trilio_data_mover_utils.py:54-58 | the lookup raises exactly when the pattern matches nowhere; otherwise it yields group 1 of the leftmost match minus its last character, digits and dots only |
| PackageIndex.EntryMatches | src/lib/trilio/trilio_data_mover_utils.py:55 | an index entry `packages/<pkg>-<v>` with `v` a maximal run of digits and dots matches, with `v` as group 1 |
| PackageIndex.FirstEntryVersion | src/lib/trilio/trilio_data_mover_utils.py:54-58 | when the package's first entry is `<v><tail>`, the lookup yields `v` without its last character |
| PackageIndex.TarballEntry | src/lib/trilio/trilio_data_mover_utils.py:54-58 | for the entry `<ver>.tar.gz` the lookup yields exactly `<ver>` |
| PackageIndex.DirectoryEntry | src/lib/trilio/trilio_data_mover_utils.py:54-58 | for the entry `<ver>/` the lookup yields `<ver>` without its last digit |
| PackageIndex.NoEntryRaises | src/lib/trilio/trilio_data_mover_utils.py:54-56 | a page without `packages/<pkg>-` makes the lookup raise (`.group` on `None`) |
| Pipeline.FailFast | src/reactive/trilio_data_mover_handlers.py:45-76 | a chain of `if not step(): return`: the calls of the steps up to and including the first that does not return True, ending as that step ended, or True when all passed (stated by `Pipeline.FailFastSpec`) |
| Pipeline.FirstFailure | src/reactive/trilio_data_mover_handlers.py:45-76 | the index of the first step that did not return True: every earlier step passed, and that one did not |
| Pipeline.FailFastSpec | src/reactive/trilio_data_mover_handlers.py:45-76 | the chain makes exactly the calls of the steps up to and including the first failure, and ends as that step ended (True when none failed) |
| Pipeline.FailFastPasses | src/reactive/trilio_data_mover_handlers.py:45-76 | the chain passes exactly when every step returned True |
| Pipeline.FailFastIgnoresLater | src/reactive/trilio_data_mover_handlers.py:45-76 | steps after the first failing one are never called: changing them changes nothing |
| Pipeline.ChainStep | src/reactive/trilio_data_mover_handlers.py:45-76 | one more step after passing ones: its calls follow theirs, a failure there is how the chain ends, and passing the last step passes the chain |
| Pipeline.FirstRaise | src/lib/trilio/trilio_data_mover_utils.py:385-395 | the first call of a `try` block that raises: every earlier call completed, that one did not |
| Pipeline.UntilRaise | src/lib/trilio/trilio_data_mover_utils.py:385-395 | a `try` block completes exactly when no call raises, and makes the calls up to and including the first that raises |
| Pipeline.Attempt | src/lib/trilio/trilio_data_mover_utils.py:385-395 | makes those calls on the node, in order, and tells whether the block completed |
| DataMoverUtils.NewVersionRun | src/lib/trilio/trilio_data_mover_utils.py:45-58 | one `curl -s http://<ip>:8081/packages/` call; raises when it fails or the page has no entry for the package, else yields the parsed version |
| DataMoverUtils.GetNewVersion | src/lib/trilio/trilio_data_mover_utils.py:45-58 | fetches the package index with curl on port 8081; a failed fetch or a page without the package raises; otherwise the version read from the page |
| DataMoverUtils.ValidateIpRun | src/lib/trilio/trilio_data_mover_utils.py:332-356 | never raises; True exactly when the address is not blank, is IPv4 and the probe of port 8781 succeeds |
| DataMoverUtils.ValidateIpBlank | src/lib/trilio/trilio_data_mover_utils.py:339-356 | an unset or all-white-space address returns False with no probe and no status |
| DataMoverUtils.ValidateIpMalformed | src/lib/trilio/trilio_data_mover_utils.py:341-355 | a non-blank non-IPv4 address reports the invalid-address blocked status and is never probed |
| DataMoverUtils.ValidateIpProbe | src/lib/trilio/trilio_data_mover_utils.py:341-349 | a well-formed address is probed with `nc -vzw 1 <ip> 8781`; True when it connects, else blocked 'Unable to reach TVault appliance' and False |
| DataMoverUtils.ValidateIpExamples | unit_tests/test_trilio_data_mover_utils.py:73-81 | `validate_ip('1.2.3.X')` is False without a probe; `validate_ip('1.2.3.4')` is True when the probe succeeds |
| DataMoverUtils.FilterMissingPackages | src/lib/trilio/trilio_data_mover_utils.py:83 | charmhelpers' `filter_missing_packages`, which despite its name keeps the requested packages that are installed: a name is in the result exactly when it was asked for and is installed |
| DataMoverUtils.ValidateNfsRun | src/lib/trilio/trilio_data_mover_utils.py:73-108 | install `nfs-common` when it is absent (raises if that fails); empty `nfs-shares`: blocked and False; `mkdir` of the data directory (may raise); mount the share: on failure blocked and False, else unmount and True |
| DataMoverUtils.ValidateNfs | src/lib/trilio/trilio_data_mover_utils.py:73-108 | on the node, makes exactly the calls of `DataMoverUtils.ValidateNfsRun` and returns its outcome |
| DataMoverUtils.NfsCommonInstalledIffAbsent | src/lib/trilio/trilio_data_mover_utils.py:83-85 | `nfs-common` is installed exactly when it is not installed yet, and left alone when present (both directions) |
| DataMoverUtils.NfsEmptyShares | src/lib/trilio/trilio_data_mover_utils.py:87-93 | empty `nfs-shares`: no mount is attempted; unless the package install raised, blocked 'No valid nfs-shares configuration found…' and False |
| DataMoverUtils.NfsTrueMeansMountedThenUnmounted | src/lib/trilio/trilio_data_mover_utils.py:96-108 | True only when the share is set and mounted, and the last two calls are that mount and the unmount of /var/triliovault-mounts |
| DataMoverUtils.NfsUnmountIffMounted | src/lib/trilio/trilio_data_mover_utils.py:99-106 | the data directory is unmounted exactly when the mount was attempted and succeeded |
| DataMoverUtils.NfsMountFailure | src/lib/trilio/trilio_data_mover_utils.py:99-104 | a failed mount ends with the blocked mount-failure status and returns False |
| DataMoverUtils.InstallPluginRun | src/lib/trilio/trilio_data_mover_utils.py:359-377 | `add_source` outside the `try` (raises if it fails); inside it `apt_update` and the install: the first failure returns False, else status 'Starting' and True |
| DataMoverUtils.InstallPlugin | src/lib/trilio/trilio_data_mover_utils.py:359-377 | adds the repository, then updates and installs inside the `try`, as its specification function says |
| DataMoverUtils.InstallPluginStatus | src/lib/trilio/trilio_data_mover_utils.py:363-377 | sets maintenance 'Starting' exactly when it returns True, and no other status; True exactly when all three calls complete; raises exactly when `add_source` fails (it is outside the `try`) |
| DataMoverUtils.InstallPluginAllSucceed | unit_tests/test_trilio_data_mover_utils.py:28-35 | `install_plugin('1.2.3.4','version','venv')` with every call succeeding returns True, having set the status once, to 'Starting' |
| DataMoverUtils.ReplaceVirtEnvRun | src/lib/trilio/trilio_data_mover_utils.py:157-203 | remove the old environment and fetch the archive (either failing: blocked 'Failed while Creating Virtual Env' and False); run the helper (failing: False); `install_plugin` (not True: its outcome); link the runtime libraries (raises when it fails or the helper printed fewer than four lines) |
| DataMoverUtils.VirtEnvRun | src/lib/trilio/trilio_data_mover_utils.py:137-203 | `mkdir` of /home/tvault (may raise), the version lookup (may raise), the comparison with `dm_ver`, which is None and never equal, then the replacement |
| DataMoverUtils.ReplaceVirtEnv | src/lib/trilio/trilio_data_mover_utils.py:157-203 | on the node: remove and fetch the environment (blocked status and False on failure), query the helper (False on failure), install the plugin, link the runtime libraries |
| DataMoverUtils.CreateVirtEnv | src/lib/trilio/trilio_data_mover_utils.py:137-203 | on the node: mkdir of /home/tvault, version lookup, the never-taken comparison with `dm_ver`, then the replacement |
| DataMoverUtils.ReplaceVirtEnvSteps | src/lib/trilio/trilio_data_mover_utils.py:159-194 | the first call always removes the old environment; True only after the archive was fetched and the plugin package installed, with the library linking as the last call |
| DataMoverUtils.VirtEnvAlwaysReprovisions | src/lib/trilio/trilio_data_mover_utils.py:147-203 | whenever the version is found the old environment is removed: the "already installed" return is dead code; True only after the archive was fetched, the package installed and, last, the libraries linked |
| DataMoverUtils.DatamoverConf | src/lib/trilio/trilio_data_mover_utils.py:240-256 | the file has the sections DEFAULT, contego_sys_admin and conductor, in that order, holding exactly 11, 1 and 1 keys |
| DataMoverUtils.DatamoverConfNfs | src/lib/trilio/trilio_data_mover_utils.py:237-242 | the NFS export and options are the charm options verbatim (unset is written as None), and the file depends on nothing else of the configuration |
| DataMoverUtils.DatamoverConfStorage | src/lib/trilio/trilio_data_mover_utils.py:243-245 | storage type `nfs`, the old and new data directories |
| DataMoverUtils.DatamoverConfLogging | src/lib/trilio/trilio_data_mover_utils.py:246-248 | log file, debug False, verbose True |
| DataMoverUtils.DatamoverConfLimits | src/lib/trilio/trilio_data_mover_utils.py:249-251 | 3 pending uploads, 3 pending commits, a 600-second guest-agent timeout |
| DataMoverUtils.DatamoverConfSections | src/lib/trilio/trilio_data_mover_utils.py:252-256 | the privsep helper command and `use_local = True` |
| DataMoverUtils.CreateConfRun | src/lib/trilio/trilio_data_mover_utils.py:258-263 | one write of the file; never returns False (True or raised) |
| DataMoverUtils.CreateConf | src/lib/trilio/trilio_data_mover_utils.py:233-263 | writes the file on the node, as its specification function says |
| DataMoverUtils.ExecStart | src/lib/trilio/trilio_data_mover_utils.py:299-308 | the ExecStart line: interpreter and binary, the helper's first line, `--config-file`, `--config-dir` when /etc/nova/nova.conf.d exists, and the seventeen trailing blanks of the continued literal |
| DataMoverUtils.ExecTailSingleLine | src/lib/trilio/trilio_data_mover_utils.py:300-308 | the configuration-file and configuration-directory flags and the trailing blanks hold no line break |
| DataMoverUtils.ExecStartSingleLine | src/lib/trilio/trilio_data_mover_utils.py:299-308 | ExecStart is a single line whatever the helper prints |
| DataMoverUtils.ServiceUnit | src/lib/trilio/trilio_data_mover_utils.py:309-323 | the unit file has the sections Unit, Service and Install, in that order, holding exactly 2, 7 and 1 keys |
| DataMoverUtils.ServiceUnitContents | src/lib/trilio/trilio_data_mover_utils.py:314-323 | the value of each of those ten keys: all fixed except ExecStart, which is the built command line |
| DataMoverUtils.ServiceFileRun | src/lib/trilio/trilio_data_mover_utils.py:290-329 | never returns False: True or raised |
| DataMoverUtils.CreateServiceFile | src/lib/trilio/trilio_data_mover_utils.py:290-329 | on the node: run the helper, check for /etc/nova/nova.conf.d, write the unit built from the helper's first line |
| DataMoverUtils.MountPathsToUnmount | src/lib/trilio/trilio_data_mover_utils.py:397-399 | `[mp[0] for mp in mounts() if TV_DATA_DIR in mp[0]]`, in the table's order (stated by the two lemmas that follow) |
| DataMoverUtils.MountPathsMembership | src/lib/trilio/trilio_data_mover_utils.py:397-399 | a mount point is selected exactly when it is in the mount table and its path contains /var/triliovault-mounts |
| DataMoverUtils.MountPathsAppend | src/lib/trilio/trilio_data_mover_utils.py:398-399 | the filter keeps the order of the mount table |
| DataMoverUtils.WaitCalls | src/lib/trilio/trilio_data_mover_utils.py:401-404 | the polls of tvault-object-store, numbered from 0, with a five-second sleep after each poll that finds it running while fewer than three sleeps were made (stated by `DataMoverUtils.WaitLayout` and `DataMoverUtils.WaitStops`) |
| DataMoverUtils.WaitForObjectStore | src/lib/trilio/trilio_data_mover_utils.py:384-404 | the `retry_count` loop on the node makes exactly the polls and sleeps of the wait |
| DataMoverUtils.WaitLayout | src/lib/trilio/trilio_data_mover_utils.py:401-404 | the wait alternates numbered polls with five-second sleeps and ends with a poll: at most 3 sleeps and 4 polls |
| DataMoverUtils.WaitStops | src/lib/trilio/trilio_data_mover_utils.py:401-404 | every poll but the last found the object store running; the last found it stopped or was the poll after the third sleep |
| DataMoverUtils.UnmountAll | src/lib/trilio/trilio_data_mover_utils.py:406-407 | unmounts each selected path, in order |
| DataMoverUtils.UninstallRun | src/lib/trilio/trilio_data_mover_utils.py:380-417 | `service_stop`, then the `try` calls up to the first that raises (then False); if none raises, the wait, an unmount of each selected path, the purge, and True |
| DataMoverUtils.UninstallPlugin | src/lib/trilio/trilio_data_mover_utils.py:380-417 | the teardown on the node: stop, the `try` calls until one raises, the wait, the unmounts, the purge |
| DataMoverUtils.UmountTargetsOfUnmounts | src/lib/trilio/trilio_data_mover_utils.py:406-407 | the unmount calls name exactly the given paths, in order |
| DataMoverUtils.UninstallUnmounts | src/lib/trilio/trilio_data_mover_utils.py:397-417 | never raises; True exactly when no teardown call raised; then exactly the selected mount points are unmounted, in the table's order, otherwise none |
| DataMoverHandlers.StepRun | src/reactive/trilio_data_mover_handlers.py:45-76 | what each of the eight checks calls: the modelled routine, or for add_users, ensure_files and ensure_data_dir one call whose outcome the world decides, followed for add_users and ensure_files, when it is False, by the blocked status each sets |
| DataMoverHandlers.InstallRun | src/reactive/trilio_data_mover_handlers.py:36-87 | 'Installing...', then the fail-fast chain of the eight checks; when all pass, the closing calls of `DataMoverHandlers.FinishRun` |
| DataMoverHandlers.FinishRun | src/reactive/trilio_data_mover_handlers.py:78-86 | daemon-reload and enable (either raising ends it), restart (result ignored), active 'Unit is ready', the version lookup (may raise), the version publication |
| DataMoverHandlers.InstallStopsAtFirstFailure | src/reactive/trilio_data_mover_handlers.py:39-76 | after 'Installing...' the checks run in the order validate_ip, validate_nfs, add_users, create_virt_env, ensure_files, create_conf, ensure_data_dir, create_service_file; the first that does not return True ends the handler with its outcome, and nothing after it runs |
| DataMoverHandlers.InstallCompletesIff | src/reactive/trilio_data_mover_handlers.py:45-87 | the handler reaches `set_flag` exactly when all eight checks return True and daemon-reload, enable and the version lookup complete |
| DataMoverHandlers.InstallCompletedCalls | src/reactive/trilio_data_mover_handlers.py:39-86 | a completed install made the calls of all checks, then daemon-reload, enable, restart, the ready status, the curl of the index and the version publication, in that order |
| DataMoverHandlers.InstallEndsReady | src/reactive/trilio_data_mover_handlers.py:84-87 | a completed install leaves the unit showing active 'Unit is ready' |
| DataMoverHandlers.BlankIpKeepsInstalling | src/reactive/trilio_data_mover_handlers.py:39-46 | an unset or blank appliance address ends the install at once: only 'Installing...' was set, and it stays the status |
| DataMoverHandlers.UnmodelledFailureBlocks | src/reactive/trilio_data_mover_handlers.py:54-64 | when add_users or ensure_files is the first check to return False, the handler returns there and the unit shows blocked 'Failed while adding Users' or 'TrilioVault Datamover binary is not present on TVault VM' |
| DataMoverHandlers.MalformedIpBlocks | src/reactive/trilio_data_mover_handlers.py:39-46 | a malformed address ends the install blocked with the invalid-address message |
| DataMoverHandlers.ConfigChangedRun | src/reactive/trilio_data_mover_handlers.py:90-98 | stop the service; `validate_nfs` (raising ends it); when it returned True, `create_conf` (raising ends it) and active 'Unit is ready'; then start the service |
| DataMoverHandlers.NfsWritesNoConf | src/reactive/trilio_data_mover_handlers.py:95-97 | the NFS check neither writes the configuration nor reports ready |
| DataMoverHandlers.ConfigChangedBracketed | src/reactive/trilio_data_mover_handlers.py:94-98 | config_changed stops the service first and, unless a call raised, starts it last, whether or not NFS validated |
| DataMoverHandlers.ConfigRewrittenOnlyWhenValid | src/reactive/trilio_data_mover_handlers.py:95-97 | the configuration is rewritten exactly when validate_nfs returned True; ready is reported exactly when the handler ends in True, which is when NFS validated and the write completed |
| DataMoverHandlers.TeardownRun | src/reactive/trilio_data_mover_handlers.py:107-115 | maintenance 'Stopping Trilio service', then the calls of `uninstall_plugin`, ending as it ends |
| DataMoverHandlers.TeardownShowsStopping | src/reactive/trilio_data_mover_handlers.py:110-112 | teardown sets maintenance 'Stopping Trilio service' and uninstall sets no status, so that status stays |
| DataMoverHandlers.Enabled | src/reactive/trilio_data_mover_handlers.py:36-107 | the registered guards: install when `installed` is unset, config_changed when `config.changed` and `installed` are set, teardown when `stopping` is set, the stop hook always |
| DataMoverHandlers.NextFlags | src/reactive/trilio_data_mover_handlers.py:87-115 | the flags a handler leaves: install adds `installed` when it reached `set_flag`, the stop hook adds `stopping`, teardown removes `stopping` when the uninstall returned True, config_changed changes none |
| DataMoverHandlers.FlagsAfter | src/reactive/trilio_data_mover_handlers.py:36-115 | the flags after a series of dispatches; a handler whose guard does not hold changes nothing |
| DataMoverHandlers.InstalledStays | src/reactive/trilio_data_mover_handlers.py:36-115 | no handler clears `installed`: once set it stays set over any dispatches, and the install handler never fires again |
| DataMoverHandlers.InstallRetried | src/reactive/trilio_data_mover_handlers.py:36-87 | while no install has completed, `installed` is unset and the install guard still lets the handler fire |
| DataMoverHandlers.StoppingUntilUninstalled | src/reactive/trilio_data_mover_handlers.py:101-115 | once set, `stopping` stays set, and teardown stays enabled, until a teardown whose uninstall returned True |
| DataMoverHandlers.DataMoverCharm.RunStep | src/reactive/trilio_data_mover_handlers.py:45-76 | runs one check on the node, as its specification says |
| DataMoverHandlers.DataMoverCharm.RunChecks | src/reactive/trilio_data_mover_handlers.py:45-76 | runs the checks in order on the node until one does not return True: exactly the fail-fast chain |
| DataMoverHandlers.DataMoverCharm.Finish | src/reactive/trilio_data_mover_handlers.py:78-86 | daemon-reload and enable (either may raise), restart, ready status, version lookup (may raise), version publication |
| DataMoverHandlers.DataMoverCharm.InstallTvaultContegoPlugin | src/reactive/trilio_data_mover_handlers.py:36-87 | requires `installed` unset; makes exactly the install's calls; adds `installed` exactly when the handler ran to its end, and changes no other flag |
| DataMoverHandlers.DataMoverCharm.ConfigChangedHandler | src/reactive/trilio_data_mover_handlers.py:90-98 | requires `config.changed` and `installed`; makes exactly config_changed's calls; flags unchanged |
| DataMoverHandlers.DataMoverCharm.StopHandler | src/reactive/trilio_data_mover_handlers.py:101-104 | adds `stopping`, changes nothing else and makes no call |
| DataMoverHandlers.DataMoverCharm.StopTvaultContegoPlugin | src/reactive/trilio_data_mover_handlers.py:107-115 | requires `stopping`; sets the stopping status, runs the uninstall, removes `stopping` exactly when it returned True |
| DataMoverHandlers.DataMoverCharm.Dispatch | unit_tests/test_trilio_data_mover_handlers.py:24-34 | a handler fires exactly when its registered guard holds (install: `installed` unset; config_changed: `config.changed` and `installed`; teardown: `stopping`; the stop hook always); otherwise flags and node are unchanged |

## Left out

- charmhelpers and the reactive framework are not part of this model.
  - Calls whose completion the environment decides (`Env.ok`): the
    subprocesses, `mkdir`, `mount`, `add_source`, `apt_update`, `apt_install`,
    the archive fetch, the file writes and removals, and `service_running`.
  - What `filter_missing_packages` and `mounts()` answer comes from
    `Env.installed` and `Env.mountTable`.
  - The model records these calls as always completing and never raising:
    `status_set`, `application_version_set`, `service_stop`, `service_start`,
    `service_restart`, `umount` and `apt_purge`. The charm ignores what they
    return. charmhelpers reports their failure through that return value (for
    `apt_purge`, because it is not fatal). An exception from one of them, such
    as a missing hook tool, is not modelled.
  - The reactive framework's scheduling (which handler it dispatches, and when
    it clears `config.changed`) is left to the caller of `Dispatch`.
- `log(...)` calls write nothing the charm reads back; they are not modelled.
- `time.sleep(5)` is the effect `Sleep(5)`; no time passes in the model.
- Each dispatch sees one fixed world (`Env`): the same call gets the same
  answer every time within it. A world that changes between two identical
  calls in one dispatch is not modelled.
- `netaddr.valid_ipv4` is the oracle `isIpv4`. For the two addresses the tests
  use, its answers are stated as a precondition (`Ipv4Pinned`).
- add_users, ensure_files and ensure_data_dir are outside the core. Each is
  one `Unmodelled` call whose outcome the environment decides. The blocked
  statuses that add_users and ensure_files set when they return False are
  kept. ensure_data_dir never returns False in the source; the model lets the
  environment answer False there too.
- Lines 186-201 of `create_virt_env` (removing and linking the runtime
  libraries, copying the sudoers and filter files) are one `LinkRuntime` call.
  It raises when the environment says so, or when the helper printed fewer
  than four lines (the `IndexError` of `sym_link_paths[3]`).
- Text is `seq<char>`. `strip` and `\s` are modelled on the ASCII white-space
  characters and `\d` on the ASCII digits. Other Unicode white space and digits,
  and `decode('utf-8')` errors, are not modelled.
- ValidateIpRun: never raises, because the model takes `nc` to either exit 0
  or fail with `CalledProcessError`. An `OSError` from starting `nc` (the
  program missing) would escape `validate_ip`, which catches only
  `CalledProcessError`; it is not modelled.
- `check_presence('/etc/nova/nova.conf.d')` is the `ls` call `CONF_DIR_CHECK`,
  which answers present or absent. An `OSError` from starting `ls` would escape
  it the same way; it is not modelled.
- The configuration files are lists of sections with typed values. The byte
  format `configparser` writes is not modelled.
- `'curl -s http://{}:8081/packages/'.format(ip).split()` is modelled as three
  arguments, which is what it gives when the address holds no white space.
- `subprocess.check_call('sudo systemctl daemon-reload')` at line 391 passes one
  string without a shell, so Python looks for a program with that whole name.
  Whether it completes is left to the environment, like every other call.
- The version lookup puts the package name into the pattern unescaped. The
  model treats it literally, which is exact for the names the charm uses.
- An exception the charm code does not catch ends the hook. The model returns
  `Raised` and keeps the calls made up to that point; it does not model how
  Juju retries a failed hook.
