# Resourcemanager charm handlers in Dafny

This project models the reactive handler set of the Apache Bigtop
resourcemanager charm (`reactive/resourcemanager.py`). Each handler is
guarded by `@when` / `@when_not` decorators over named states and, when it
runs, changes the charm's own flags (`installed`, `started`, `ready`), its
key/value host map, and publishes data on its relations.

The model is functional:

- `CharmState` holds one immutable record with the flags, the states and
  data the relations show, the host map, and the facts about the machine
  that the handlers obtain from collaborators (the `facter fqdn` answer,
  the bigtop spec, the configured ports).
- `Effects` lists the observable side effects of a handler in order:
  status updates, relation sends, installer calls, service restarts, opened
  ports and dismissals.
- `Handlers` has one pure function per handler. The decorators are its
  `requires`, and its result is the new state plus the side effects.
- `Reactive` writes the decorators down as a table, proves that the table
  means exactly each handler's `requires`, and defines the runs. In a run,
  any enabled handler may fire next, and the relations may change between
  any two firings. The framework's dispatch order is not assumed.
  The flag ordering `started ⇒ installed` and `ready ⇒ started` is proved
  for every run and for every hook-run ordering of handlers.
- `HostMap` is the key/value host map. `StatusText` and `Decimal` give
  the text of the `ready (N nodemanager…)` status.
- `HandlerFacts` and `Scenarios` hold properties that relate several
  firings: idempotence, once-only install and start, the shared early
  payload, client readiness, and departure handling.

Facts about the handlers worth knowing:

- The early install information is sent only while `installed` is unset
  (reactive/resourcemanager.py:102-106, 175-179). Once installed but not
  yet started, nodemanagers and clients are sent nothing (the full handlers
  need `started`, lines 109-110 and 182-183). See
  `Scenarios.InstalledNotStartedSendsNodemanagersNothing`.
- `ready` is not lowered by a departure: `remove_nm` leaves every flag
  alone (lines 147-160). Only `wait_for_nm` lowers `ready`, and it runs
  once the nodemanager relation is gone (lines 163-169). Its status is
  `yarn requires a nodemanager relation`.
- `blocked` only sets a status (lines 40-42). It does not reset any flag.

## Model

| member | source | states |
|---|---|---|
| Handlers.SendEarlyInstallInfo | reactive/resourcemanager.py:11-34 | sends nothing iff the namenode FQDN is empty; otherwise exactly the host list `[nn, rm]` and then the ports, all to the given relation |
| Handlers.Blocked | reactive/resourcemanager.py:40-42 | changes no state; the status is blocked on the missing namenode relation |
| Handlers.InstallResourcemanager | reactive/resourcemanager.py:45-71 | without a namenode FQDN: state unchanged, no install, status waiting; with one: the installer gets exactly `{namenode: nn, resourcemanager: rm}` for role resourcemanager, only `installed` is raised, the host map gains this unit's entry and is otherwise untouched, the relations do not change |
| Handlers.SendNnSpec | reactive/resourcemanager.py:74-81 | state unchanged; the namenode is sent exactly this unit's spec; status waits for the namenode |
| Handlers.StartResourcemanager | reactive/resourcemanager.py:84-96 | raises `started` and no other flag; both services restarted; every exposed port opened; status active "ready" |
| Handlers.SendNmInstallInfo | reactive/resourcemanager.py:102-106 | state unchanged; sends nothing iff the namenode FQDN is empty, otherwise exactly `[nn, rm]` then the ports, and only to nodemanagers |
| Handlers.SendNmAllInfo | reactive/resourcemanager.py:109-144 | raises `ready` only; merges the nodemanagers' hosts into the host map before sending it; sends host list, spec, ports, host map and the placeholder key, in that order; status reports the nodemanager count |
| Handlers.RemoveNm | reactive/resourcemanager.py:147-160 | no flag changes; exactly the departing names leave the host map; the departures are dismissed; no status |
| Handlers.WaitForNm | reactive/resourcemanager.py:163-169 | lowers `ready`, keeps `installed` and `started`, status says yarn needs a nodemanager |
| Handlers.SendClientInstallInfo | reactive/resourcemanager.py:175-179 | state unchanged; sends nothing iff the namenode FQDN is empty, otherwise exactly `[nn, rm]` then the ports, and only to clients |
| Handlers.SendClientAllInfo | reactive/resourcemanager.py:182-212 | state unchanged; clients are sent exactly host list, spec, ports, readiness and current host map, in that order; the readiness sent is exactly the `ready` flag |
| Handlers.RegisterBenchmarks | reactive/resourcemanager.py:218-220 | state unchanged; registers exactly mrbench, nnbench, terasort, testdfsio |
| Reactive.EnabledMeans | reactive/resourcemanager.py:40-219 | the decorator table holds of a state exactly when the matching handler's precondition does, both directions |
| Reactive.Fire | reactive/resourcemanager.py:40-220 | dispatches an enabled handler; no handler changes the machine facts, and only `remove_nm` (by dismissing) changes what the relations show |
| Reactive.FireKeepsProgress | reactive/resourcemanager.py:68-166 | no handler lowers `installed` or `started` |
| Reactive.OnlyInstallSetsInstalled | reactive/resourcemanager.py:45-68 | only `install_resourcemanager` raises `installed` |
| Reactive.OnlyStartSetsStarted | reactive/resourcemanager.py:84-95 | only `start_resourcemanager` raises `started`, and only when `installed` holds |
| Reactive.OnlySendNmAllInfoSetsReady | reactive/resourcemanager.py:109-144 | only `send_nm_all_info` raises `ready`, and only when `started` holds |
| Reactive.OnlyWaitForNmClearsReady | reactive/resourcemanager.py:163-166 | only `wait_for_nm` lowers `ready` |
| Reactive.FireKeepsFlagOrder | reactive/resourcemanager.py:84-166 | each handler keeps `started ⇒ installed` and `ready ⇒ started` |
| Reactive.NextKeepsFlagOrder | reactive/resourcemanager.py:68-166 | a relation change or any enabled handler keeps the flag ordering |
| Reactive.RunKeepsFlagOrder | reactive/resourcemanager.py:68-166 | the flag ordering holds in every state of every run that starts with it |
| Reactive.FreshRunOrdered | reactive/resourcemanager.py:68-166 | from a fresh unit, no run ever has `started` without `installed` or `ready` without `started` |
| Reactive.NextKeepsProgress | reactive/resourcemanager.py:68-166 | no step lowers `installed` or `started` |
| Reactive.RunKeepsProgress | reactive/resourcemanager.py:68-166 | once set in a run, `installed` and `started` stay set for the rest of it |
| Reactive.Try | reactive/resourcemanager.py:40-220 | a handler at its turn fires only if enabled, otherwise nothing happens; either way the flag ordering and progress flags are kept |
| Reactive.RunPass | reactive/resourcemanager.py:40-220 | whatever order a hook run tries the handlers in, the flag ordering survives and `installed`/`started` are not lost |
| HostMap.Update | reactive/resourcemanager.py:134 | every given entry is present with its new address; other entries are untouched |
| HostMap.Remove | reactive/resourcemanager.py:159 | exactly the named keys are gone; survivors keep their addresses |
| HostMap.Initialize | reactive/resourcemanager.py:66 | this unit's own entry is recorded; other entries are untouched |
| HostMap.InitializeIdempotent | reactive/resourcemanager.py:66 | recording this unit's entry twice is recording it once |
| HostMap.UpdateIdempotent | reactive/resourcemanager.py:134 | merging the same hosts twice is merging once |
| HostMap.RemoveAbsent | reactive/resourcemanager.py:159 | removing names not in the map changes nothing |
| HostMap.RemoveIdempotent | reactive/resourcemanager.py:159 | removing the same names twice is removing once |
| Decimal.FromNat | reactive/resourcemanager.py:140-141 | the count is printed as a non-empty run of digits with no leading zero |
| Decimal.ToNatFromNat | reactive/resourcemanager.py:140-141 | reading the printed count back gives the count |
| Decimal.FromNatInjective | reactive/resourcemanager.py:140-141 | different counts print differently |
| StatusText.NodemanagerReady | reactive/resourcemanager.py:139-143 | the `ready (N nodemanager…)` status: its text is plural exactly above one and reports the count it was built from |
| StatusText.NodemanagerReadyPlural | reactive/resourcemanager.py:139-143 | the status ends in `s)` exactly when the count exceeds one |
| StatusText.NodemanagerReadyCount | reactive/resourcemanager.py:139-143 | the status reports the count it was built from |
| StatusText.NodemanagerReadyInjective | reactive/resourcemanager.py:139-143 | different nodemanager counts give different statuses |
| HandlerFacts.FireIdempotent | reactive/resourcemanager.py:40-220 | firing any handler twice in a row gives the same state and the same published data as firing it once |
| HandlerFacts.InstallNeverRepeats | reactive/resourcemanager.py:45-68 | once `installed` holds in a run, the install handler is never enabled again |
| HandlerFacts.InstallDisablesItself | reactive/resourcemanager.py:45-68 | a successful install disables the install handler |
| HandlerFacts.StartNeverRepeats | reactive/resourcemanager.py:84-95 | once the start handler has fired in a run, it is never enabled again |
| HandlerFacts.EarlyInfoShared | reactive/resourcemanager.py:102-179 | the early handlers run only before install, and nodemanagers and clients get the same payloads |
| HandlerFacts.NodemanagerStatus | reactive/resourcemanager.py:138-143 | the status of `send_nm_all_info` is active, reports the nodemanager count, and is plural exactly above one |
| HandlerFacts.ClientsToldNotReadyWithoutNodemanagers | reactive/resourcemanager.py:163-208 | after `wait_for_nm`, clients are sent readiness false while the charm stays started |
| HandlerFacts.DepartureOnlyForgetsLeavers | reactive/resourcemanager.py:147-160 | departure keeps every flag, keeps all other host entries, and is harmless for names not in the map |
| Scenarios.InstallWithNamenodeFqdn | reactive/resourcemanager.py:54-69 | namenode `nn1.example`, machine `rm1.example`: install is called with exactly those hosts and only `installed` is raised |
| Scenarios.NoNamenodeNoProgress | reactive/resourcemanager.py:40-47 | without a namenode relation a fresh unit is blocked and no enabled handler raises a flag |
| Scenarios.InstalledNotStartedSendsNodemanagersNothing | reactive/resourcemanager.py:102-111 | installed but not started: none of the nodemanager or client handlers is enabled — neither the four send handlers nor `remove_nm` or `wait_for_nm` |
| Scenarios.OneOfTwoNodemanagersDeparts | reactive/resourcemanager.py:147-160 | one of two nodemanagers departs: its entry goes, the other stays, `ready` stays, the departure is dismissed |
| Scenarios.LastNodemanagerLeaves | reactive/resourcemanager.py:147-169 | the last nodemanager departs: `ready` stays until the relation is gone, then `wait_for_nm` lowers it and keeps `started` |

## Left out

- Collaborators are not modelled. This covers `bigtop.install`, `bigtop.spec()`, `host.service_restart`, `hookenv.open_port`, `hookenv.status_set`, `hookenv.log` and the `facter fqdn` call. Their answers are inputs in `Local`, and their calls appear as entries in the action list.
- A collaborator that raises aborts the hook. The charm's flags and host map are then as they were, which is a run step with an unchanged state (a `RelationStep`), not a branch of each handler. A status already set before the failure (reactive/resourcemanager.py:55 before the `facter` call and `bigtop.install`, line 87 before the service restarts) and whatever the installer or service control did on the machine before raising are not modelled.
- `jujubigdata.utils` is not part of this model. The host map is taken to be a plain map: `update_kv_hosts` is an overriding union, `remove_kv_hosts` removes keys and ignores absent ones, and `initialize_kv_host` records one entry for this unit, whose key and address are inputs.
- The relation interface classes are not part of this model. Only their observable results appear: the states they raise, the data `namenodes()`, `nodes()` and `hosts_map()` return, and the payloads sent.
- `namenodes()[0]` is a string, and "" stands for any falsy value. `namenodes()` is assumed never to be an empty list.
- `dismiss()` is taken to clear the `nodemanager.departing` state and the list of departing nodes.
- How relations join and depart is not modelled. Between two handler firings, any relation state or data may change, but the charm's own flags and host map may not.
- The machine facts in `Local` are fixed for a whole run: the `facter fqdn` answer, the bigtop spec, the ports, the exposed ports and this unit's host-map entry. Neither a relation step nor a handler changes them, so a run does not model the machine's FQDN, spec or configuration changing over time.
- The dispatch order of `charms.reactive` and how flags persist across hook runs are not modelled. Runs let any enabled handler fire next, and `RunPass` allows any order.
- Port numbers come from the layer options and are inputs. No values are assumed.
- The host map is not proved to hold exactly the nodemanagers advertised and not yet departed. That would need the link between `hosts_map()` and `nodes()`, which lives in the interface code.
- Handlers.StartResourcemanager: states that both services are restarted and every exposed port is opened, but not the order of those calls.
