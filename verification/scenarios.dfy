/** Concrete situations of the charm's life, stated over the handler table. */
module Scenarios {

  import opened Wrappers
  import opened CharmState
  import opened Effects
  import opened Reactive

  /** The namenode has joined and published `nn1.example`, this machine is
      `rm1.example`: the install handler runs the installer with exactly those
      two hosts and raises `installed` alone. */
  lemma InstallWithNamenodeFqdn(rel: Relations, local: Local, hosts: map<string, string>)
    requires rel.puppetAvailable && rel.namenodeJoined && rel.namenodeFqdn == "nn1.example"
    requires local.fqdn == "rm1.example"
    ensures var s := State(Flags(false, false, false), rel, hosts, local);
            && Enabled(InstallResourcemanager, s)
            && InstallRole(map["namenode" := "nn1.example", "resourcemanager" := "rm1.example"], "resourcemanager")
                 in Fire(InstallResourcemanager, s).actions
            && Fire(InstallResourcemanager, s).state.flags == Flags(true, false, false)
            && LastStatus(Fire(InstallResourcemanager, s).actions)
                 == Some(Status(Maintenance, "resourcemanager installed"))
  {
    var s := State(Flags(false, false, false), rel, hosts, local);
    EnabledMeans(InstallResourcemanager, s);
    var r := Fire(InstallResourcemanager, s);
    var expected := map["namenode" := "nn1.example", "resourcemanager" := "rm1.example"];
    var a :| a in r.actions && a.InstallRole?;
    assert a.hosts == expected;
  }

  /** Without a namenode relation, a fresh unit reports itself blocked and no
      handler that can fire raises any flag. */
  lemma NoNamenodeNoProgress(h: Handler, s: State)
    requires Fresh(s) && !s.rel.namenodeJoined
    ensures Enabled(Handler.Blocked, s)
    ensures LastStatus(Fire(Handler.Blocked, s).actions)
              == Some(Status(Severity.Blocked, "missing required namenode relation"))
    ensures Enabled(h, s) ==> Fire(h, s).state.flags == s.flags
  {
    EnabledMeans(Handler.Blocked, s);
    EnabledMeans(h, s);
  }

  /** Installed but not yet started: nodemanagers are sent nothing, since the
      early handler stops at `installed` and the full one waits for `started`. */
  lemma InstalledNotStartedSendsNodemanagersNothing(s: State)
    requires s.flags.installed && !s.flags.started
    ensures !Enabled(SendNmInstallInfo, s) && !Enabled(SendNmAllInfo, s)
    ensures !Enabled(SendClientInstallInfo, s) && !Enabled(SendClientAllInfo, s)
    ensures !Enabled(RemoveNm, s) && !Enabled(WaitForNm, s)
  {
    EnabledMeans(RemoveNm, s);
    EnabledMeans(WaitForNm, s);
    EnabledMeans(SendNmInstallInfo, s);
    EnabledMeans(SendNmAllInfo, s);
    EnabledMeans(SendClientInstallInfo, s);
    EnabledMeans(SendClientAllInfo, s);
  }

  /** Two nodemanagers known, one departs: its entry leaves the host map, the
      other stays, `ready` stays set and the departure is acknowledged. */
  lemma OneOfTwoNodemanagersDeparts(s: State)
    requires s.flags == Flags(true, true, true) && s.rel.namenodeReady && s.rel.nodemanagerDeparting
    requires s.rel.nodemanagerLeaving == ["nm-1"]
    requires s.hosts == map["nm-0" := "10.0.0.3", "nm-1" := "10.0.0.4"]
    ensures Enabled(RemoveNm, s)
    ensures Fire(RemoveNm, s).state.hosts == map["nm-0" := "10.0.0.3"]
    ensures Fire(RemoveNm, s).state.flags.ready
    ensures Dismiss(Nodemanager) in Fire(RemoveNm, s).actions
  {
    EnabledMeans(RemoveNm, s);
    var r := Fire(RemoveNm, s);
    assert r.state.hosts.Keys == {"nm-0"};
  }

  /** The last nodemanager departs: `remove_nm` alone leaves `ready` set; once
      the relation is gone, `wait_for_nm` lowers `ready`, keeps `started`, and
      says yarn needs a nodemanager. */
  lemma LastNodemanagerLeaves(s: State)
    requires s.flags == Flags(true, true, true) && s.rel.namenodeReady && s.rel.nodemanagerDeparting
    ensures Enabled(RemoveNm, s)
    ensures Fire(RemoveNm, s).state.flags.ready
    ensures var s1 := Fire(RemoveNm, s).state;
            var s2 := s1.(rel := s1.rel.(nodemanagerJoined := false));
            && RelationStep(s1, s2)
            && Enabled(WaitForNm, s2)
            && Fire(WaitForNm, s2).state.flags == Flags(true, true, false)
            && LastStatus(Fire(WaitForNm, s2).actions)
                 == Some(Status(Active, "yarn requires a nodemanager relation"))
  {
    EnabledMeans(RemoveNm, s);
    var s1 := Fire(RemoveNm, s).state;
    EnabledMeans(WaitForNm, s1.(rel := s1.rel.(nodemanagerJoined := false)));
  }
}
