/** Properties of the handlers that relate several firings, or a firing and
    the runs it can appear in. */
module HandlerFacts {

  import opened Wrappers
  import opened CharmState
  import opened Effects
  import opened Reactive
  import Handlers
  import HostMap
  import StatusText

  /** Firing a handler again straight away, with nothing else changed, leaves
      the same state and publishes the same things as the first firing. */
  lemma FireIdempotent(h: Handler, s: State)
    requires Enabled(h, s) && Enabled(h, Fire(h, s).state)
    ensures Fire(h, Fire(h, s).state) == Fire(h, s)
  {
    EnabledMeans(h, s);
    if h == SendNmAllInfo {
      HostMap.UpdateIdempotent(s.hosts, s.rel.nodemanagerHosts);
    }
  }

  /** Once `installed` is set anywhere in a run, `install_resourcemanager`
      never fires again: a second install after success cannot happen. */
  lemma InstallNeverRepeats(run: seq<State>, i: nat, j: nat)
    requires IsRun(run) && i <= j < |run|
    requires run[i].flags.installed
    ensures !Enabled(InstallResourcemanager, run[j])
  {
    RunKeepsProgress(run, i, j);
    EnabledMeans(InstallResourcemanager, run[j]);
  }

  /** A successful install disables the install handler. */
  lemma InstallDisablesItself(s: State)
    requires Enabled(InstallResourcemanager, s) && s.rel.namenodeFqdn != ""
    ensures !Enabled(InstallResourcemanager, Fire(InstallResourcemanager, s).state)
  {
    EnabledMeans(InstallResourcemanager, s);
    EnabledMeans(InstallResourcemanager, Fire(InstallResourcemanager, s).state);
  }

  /** Once `start_resourcemanager` has fired in a run, it is never enabled again. */
  lemma StartNeverRepeats(run: seq<State>, i: nat, j: nat)
    requires IsRun(run) && i < j < |run|
    requires HandlerStep(run[i], run[i + 1], StartResourcemanager)
    ensures !Enabled(StartResourcemanager, run[j])
  {
    EnabledMeans(StartResourcemanager, run[i]);
    RunKeepsProgress(run, i + 1, j);
    EnabledMeans(StartResourcemanager, run[j]);
  }

  /** The early install information is sent only while not installed, and
      nodemanagers and clients are sent the very same payloads. */
  lemma EarlyInfoShared(s: State)
    requires Enabled(SendNmInstallInfo, s) && Enabled(SendClientInstallInfo, s)
    ensures !s.flags.installed
    ensures SentTo(Fire(SendNmInstallInfo, s).actions, Nodemanager)
         == SentTo(Fire(SendClientInstallInfo, s).actions, Client)
  {
    EnabledMeans(SendNmInstallInfo, s);
    EnabledMeans(SendClientInstallInfo, s);
    if s.rel.namenodeFqdn == "" {
      assert Handlers.SendEarlyInstallInfo(s, Nodemanager) == [];
      assert Handlers.SendEarlyInstallInfo(s, Client) == [];
    }
  }

  /** The status `send_nm_all_info` reports names the nodemanager count and
      ends in `s)` exactly when that count exceeds one. */
  lemma NodemanagerStatus(s: State)
    requires Enabled(SendNmAllInfo, s)
    ensures var st := LastStatus(Fire(SendNmAllInfo, s).actions);
            && st.Some? && st.value.severity == Active
            && StatusText.ReportedCount(st.value.message) == Some(|s.rel.nodemanagerNodes|)
            && var m := st.value.message;
               |m| >= 2 && (m[|m| - 2] == 's' <==> |s.rel.nodemanagerNodes| > 1)
  {
    EnabledMeans(SendNmAllInfo, s);
    StatusText.NodemanagerReadyCount(|s.rel.nodemanagerNodes|);
    StatusText.NodemanagerReadyPlural(|s.rel.nodemanagerNodes|);
  }

  /** After `wait_for_nm` has lowered `ready`, clients are told the
      resourcemanager is not ready, though it is still started. */
  lemma ClientsToldNotReadyWithoutNodemanagers(s: State)
    requires Enabled(WaitForNm, s) && s.rel.clientsJoined
    ensures var s' := Fire(WaitForNm, s).state;
            && s'.flags.started
            && Enabled(SendClientAllInfo, s')
            && ReadyFlag(false) in SentTo(Fire(SendClientAllInfo, s').actions, Client)
            && ReadyFlag(true) !in SentTo(Fire(SendClientAllInfo, s').actions, Client)
  {
    EnabledMeans(WaitForNm, s);
    EnabledMeans(SendClientAllInfo, Fire(WaitForNm, s).state);
  }

  /** Departure is bookkeeping only: the charm's flags are the same after
      `remove_nm`, and nodes that were never in the host map leave it as it was. */
  lemma DepartureOnlyForgetsLeavers(s: State)
    requires Enabled(RemoveNm, s)
    ensures Fire(RemoveNm, s).state.flags == s.flags
    ensures (forall n :: n in s.rel.nodemanagerLeaving ==> n !in s.hosts) ==>
              Fire(RemoveNm, s).state.hosts == s.hosts
    ensures forall k :: k in s.hosts && k !in s.rel.nodemanagerLeaving ==>
              k in Fire(RemoveNm, s).state.hosts && Fire(RemoveNm, s).state.hosts[k] == s.hosts[k]
  {
    EnabledMeans(RemoveNm, s);
    if forall n :: n in s.rel.nodemanagerLeaving ==> n !in s.hosts {
      HostMap.RemoveAbsent(s.hosts, s.rel.nodemanagerLeaving);
    }
  }
}
