/** The handlers of the resourcemanager charm, one pure function each. A
    handler's decorators become its `requires`; its result is the state after
    the hook run and the side effects it performed, in order. Collaborators
    (`facter`, the bigtop installer, service control, port opening) are not
    called: their inputs and answers are read from `State.local`. */
module Handlers {

  import opened Wrappers
  import opened CharmState
  import opened Effects
  import HostMap
  import StatusText

  datatype Fired = Fired(state: State, actions: seq<Action>)

  const ResourcemanagerRole: string := "resourcemanager"
  const BenchmarkNames: seq<string> := ["mrbench", "nnbench", "terasort", "testdfsio"]

  /** The host list sent to nodemanagers and clients: the namenode first, then
      this machine. */
  function HostList(s: State): seq<string> {
    [s.rel.namenodeFqdn, s.local.fqdn]
  }

  function PortsPayload(s: State): Payload {
    PortSet(s.local.ports.rmIpc, s.local.ports.jhHttp, s.local.ports.jhIpc)
  }

  /** `send_early_install_info`: publish nothing until the namenode has given
      its FQDN; then the two-element host list and the ports. */
  function SendEarlyInstallInfo(s: State, to: Peer): (acts: seq<Action>)
    ensures s.rel.namenodeFqdn == "" <==> acts == []
    ensures s.rel.namenodeFqdn != "" ==>
      SentTo(acts, to) == [ResourceManagers([s.rel.namenodeFqdn, s.local.fqdn]), PortsPayload(s)]
    ensures forall a :: a in acts ==> a.Send? && a.to == to
  {
    if s.rel.namenodeFqdn != "" then
      var ps := [ResourceManagers(HostList(s)), PortsPayload(s)];
      SentToSendAll(to, ps);
      SendAll(to, ps)
    else []
  }

  /** `blocked`: only reports the missing namenode relation. */
  function Blocked(s: State): (r: Fired)
    requires !s.rel.namenodeJoined
    ensures r.state == s
    ensures forall a :: a in r.actions ==> a.SetStatus?
    ensures LastStatus(r.actions) == Some(Status(Severity.Blocked, "missing required namenode relation"))
  {
    Fired(s, [SetStatus(Status(Severity.Blocked, "missing required namenode relation"))])
  }

  /** `install_resourcemanager`. */
  function InstallResourcemanager(s: State): (r: Fired)
    requires s.rel.puppetAvailable && s.rel.namenodeJoined && !s.flags.installed
    ensures r.state.rel == s.rel && r.state.local == s.local
    ensures r.state.flags.started == s.flags.started && r.state.flags.ready == s.flags.ready
    ensures forall a :: a in r.actions ==> a.SetStatus? || a.InstallRole?
    ensures forall i, j :: 0 <= i < j < |r.actions| ==> !(r.actions[i].InstallRole? && r.actions[j].InstallRole?)
    ensures s.rel.namenodeFqdn == "" ==>
      && r.state == s
      && NoInstall(r.actions)
      && LastStatus(r.actions) == Some(Status(Waiting, "waiting for namenode fqdn"))
    ensures s.rel.namenodeFqdn != "" ==>
      && r.state.flags.installed
      && (exists a :: a in r.actions && a.InstallRole?)
      && (forall a :: a in r.actions && a.InstallRole? ==>
            && a.roles == ResourcemanagerRole
            && a.hosts.Keys == {"namenode", "resourcemanager"}
            && a.hosts["namenode"] == s.rel.namenodeFqdn
            && a.hosts["resourcemanager"] == s.local.fqdn)
      && s.local.unitHost in r.state.hosts
      && r.state.hosts[s.local.unitHost] == s.local.unitAddress
      && r.state.hosts == HostMap.Initialize(s.hosts, s.local.unitHost, s.local.unitAddress)
      && r.state.flags == s.flags.(installed := true)
      && LastStatus(r.actions) == Some(Status(Maintenance, "resourcemanager installed"))
  {
    if s.rel.namenodeFqdn != "" then
      var hosts := map["namenode" := s.rel.namenodeFqdn, "resourcemanager" := s.local.fqdn];
      var kv := HostMap.Initialize(s.hosts, s.local.unitHost, s.local.unitAddress);
      var acts := [ SetStatus(Status(Maintenance, "installing resourcemanager")),
                    InstallRole(hosts, ResourcemanagerRole),
                    SetStatus(Status(Maintenance, "resourcemanager installed")) ];
      assert acts[1] in acts;
      Fired(s.(flags := s.flags.(installed := true), hosts := kv), acts)
    else
      Fired(s, [SetStatus(Status(Waiting, "waiting for namenode fqdn"))])
  }

  /** `send_nn_spec`: offer our spec to the namenode; no state changes. */
  function SendNnSpec(s: State): (r: Fired)
    requires s.flags.installed && s.rel.namenodeJoined && !s.rel.namenodeReady
    ensures r.state == s
    ensures SentTo(r.actions, Namenode) == [Spec(s.local.spec)]
    ensures forall a :: a in r.actions ==> a.SetStatus? || (a.Send? && a.to == Namenode)
    ensures LastStatus(r.actions) == Some(Status(Waiting, "waiting for namenode to become ready"))
  {
    var sends := SendAll(Namenode, [Spec(s.local.spec)]);
    var acts := sends + [SetStatus(Status(Waiting, "waiting for namenode to become ready"))];
    SentToSendAll(Namenode, [Spec(s.local.spec)]);
    SentToAppend(sends, [SetStatus(Status(Waiting, "waiting for namenode to become ready"))], Namenode);
    Fired(s, acts)
  }

  function OpenPorts(ports: seq<int>): (acts: seq<Action>)
    ensures |acts| == |ports|
    ensures forall i :: 0 <= i < |ports| ==> acts[i] == OpenPort(ports[i])
  {
    seq(|ports|, i requires 0 <= i < |ports| => OpenPort(ports[i]))
  }

  /** `start_resourcemanager`: restart both services, open the exposed ports and
      raise `started`; no other flag moves. */
  function StartResourcemanager(s: State): (r: Fired)
    requires s.flags.installed && s.rel.namenodeReady && !s.flags.started
    ensures r.state.flags.started
    ensures r.state.flags.installed == s.flags.installed && r.state.flags.ready == s.flags.ready
    ensures r.state.rel == s.rel && r.state.hosts == s.hosts && r.state.local == s.local
    ensures RestartService("hadoop-yarn-resourcemanager") in r.actions
    ensures RestartService("hadoop-mapreduce-historyserver") in r.actions
    ensures forall p :: p in s.local.exposedPorts ==> OpenPort(p) in r.actions
    ensures forall a :: a in r.actions ==>
      a.SetStatus? || a.RestartService? || (a.OpenPort? && a.port in s.local.exposedPorts)
    ensures LastStatus(r.actions) == Some(Status(Active, "ready"))
  {
    var acts := [ SetStatus(Status(Maintenance, "starting resourcemanager")),
                  RestartService("hadoop-yarn-resourcemanager"),
                  RestartService("hadoop-mapreduce-historyserver") ]
                + OpenPorts(s.local.exposedPorts)
                + [SetStatus(Status(Active, "ready"))];
    Fired(s.(flags := s.flags.(started := true)), acts)
  }

  /** `send_nm_install_info`. */
  function SendNmInstallInfo(s: State): (r: Fired)
    requires s.rel.namenodeJoined && s.rel.nodemanagerJoined && !s.flags.installed
    ensures r.state == s
    ensures s.rel.namenodeFqdn == "" <==> r.actions == []
    ensures s.rel.namenodeFqdn != "" ==>
      SentTo(r.actions, Nodemanager) == [ResourceManagers([s.rel.namenodeFqdn, s.local.fqdn]), PortsPayload(s)]
    ensures forall a :: a in r.actions ==> a.Send? && a.to == Nodemanager
  {
    Fired(s, SendEarlyInstallInfo(s, Nodemanager))
  }

  /** `send_nm_all_info`: publish everything to the nodemanagers, merge their
      hosts into the host map before sending it, and raise `ready`. */
  function SendNmAllInfo(s: State): (r: Fired)
    requires s.flags.started && s.rel.namenodeReady && s.rel.nodemanagerJoined
    ensures r.state.flags == s.flags.(ready := true)
    ensures r.state.rel == s.rel && r.state.local == s.local
    ensures r.state.hosts == HostMap.Update(s.hosts, s.rel.nodemanagerHosts)
    ensures SentTo(r.actions, Nodemanager) ==
      [ ResourceManagers([s.rel.namenodeFqdn, s.local.fqdn]), Spec(s.local.spec), PortsPayload(s),
        HostsMap(r.state.hosts), SshKey("invalid") ]
    ensures forall a :: a in r.actions ==> a.SetStatus? || (a.Send? && a.to == Nodemanager)
    ensures LastStatus(r.actions) == Some(Status(Active, StatusText.NodemanagerReady(|s.rel.nodemanagerNodes|)))
  {
    var kv := HostMap.Update(s.hosts, s.rel.nodemanagerHosts);
    var ps := [ ResourceManagers(HostList(s)), Spec(s.local.spec), PortsPayload(s),
                HostsMap(kv), SshKey("invalid") ];
    var status := [SetStatus(Status(Active, StatusText.NodemanagerReady(|s.rel.nodemanagerNodes|)))];
    var acts := SendAll(Nodemanager, ps) + status;
    SentToSendAll(Nodemanager, ps);
    SentToAppend(SendAll(Nodemanager, ps), status, Nodemanager);
    Fired(s.(flags := s.flags.(ready := true), hosts := kv), acts)
  }

  /** `remove_nm`: drop the departing nodes from the host map and dismiss them;
      no flag of the charm moves. */
  function RemoveNm(s: State): (r: Fired)
    requires s.flags.started && s.rel.namenodeReady && s.rel.nodemanagerDeparting
    ensures r.state.flags == s.flags
    ensures r.state.hosts == HostMap.Remove(s.hosts, s.rel.nodemanagerLeaving)
    ensures forall n :: n in s.rel.nodemanagerLeaving ==> n !in r.state.hosts
    ensures !r.state.rel.nodemanagerDeparting && r.state.rel.nodemanagerLeaving == []
    ensures r.state.rel == s.rel.(nodemanagerDeparting := false, nodemanagerLeaving := [])
    ensures Dismiss(Nodemanager) in r.actions
    ensures forall a :: a in r.actions ==> a == Dismiss(Nodemanager)
    ensures NoStatus(r.actions)
  {
    Fired(s.(hosts := HostMap.Remove(s.hosts, s.rel.nodemanagerLeaving),
             rel := s.rel.(nodemanagerDeparting := false, nodemanagerLeaving := [])),
          [Dismiss(Nodemanager)])
  }

  /** `wait_for_nm`: with no nodemanager relation, lower `ready` and say why. */
  function WaitForNm(s: State): (r: Fired)
    requires s.flags.started && s.rel.namenodeReady && !s.rel.nodemanagerJoined
    ensures !r.state.flags.ready
    ensures r.state.flags.installed == s.flags.installed && r.state.flags.started == s.flags.started
    ensures r.state.rel == s.rel && r.state.hosts == s.hosts && r.state.local == s.local
    ensures LastStatus(r.actions) == Some(Status(Active, "yarn requires a nodemanager relation"))
    ensures forall a :: a in r.actions ==> a.SetStatus?
  {
    Fired(s.(flags := s.flags.(ready := false)),
          [SetStatus(Status(Active, "yarn requires a nodemanager relation"))])
  }

  /** `send_client_install_info`. */
  function SendClientInstallInfo(s: State): (r: Fired)
    requires s.rel.namenodeJoined && s.rel.clientsJoined && !s.flags.installed
    ensures r.state == s
    ensures s.rel.namenodeFqdn == "" <==> r.actions == []
    ensures s.rel.namenodeFqdn != "" ==>
      SentTo(r.actions, Client) == [ResourceManagers([s.rel.namenodeFqdn, s.local.fqdn]), PortsPayload(s)]
    ensures forall a :: a in r.actions ==> a.Send? && a.to == Client
  {
    Fired(s, SendEarlyInstallInfo(s, Client))
  }

  /** `send_client_all_info`: publish everything to the clients, including
      whether `ready` is set; no state changes. */
  function SendClientAllInfo(s: State): (r: Fired)
    requires s.flags.started && s.rel.namenodeReady && s.rel.clientsJoined
    ensures r.state == s
    ensures SentTo(r.actions, Client) ==
      [ ResourceManagers([s.rel.namenodeFqdn, s.local.fqdn]), Spec(s.local.spec), PortsPayload(s),
        ReadyFlag(s.flags.ready), HostsMap(s.hosts) ]
    ensures forall a :: a in r.actions ==> a.Send? && a.to == Client
    ensures ReadyFlag(s.flags.ready) in SentTo(r.actions, Client)
    ensures forall b :: ReadyFlag(b) in SentTo(r.actions, Client) ==> b == s.flags.ready
    ensures NoStatus(r.actions)
  {
    var ps := [ ResourceManagers(HostList(s)), Spec(s.local.spec), PortsPayload(s),
                ReadyFlag(s.flags.ready), HostsMap(s.hosts) ];
    SentToSendAll(Client, ps);
    Fired(s, SendAll(Client, ps))
  }

  /** `register_benchmarks`: advertise the four supported benchmarks. */
  function RegisterBenchmarks(s: State): (r: Fired)
    requires s.rel.benchmarkJoined
    ensures r.state == s
    ensures SentTo(r.actions, Benchmark) == [Benchmarks(["mrbench", "nnbench", "terasort", "testdfsio"])]
    ensures forall a :: a in r.actions ==> a.Send? && a.to == Benchmark
  {
    SentToSendAll(Benchmark, [Benchmarks(BenchmarkNames)]);
    Fired(s, SendAll(Benchmark, [Benchmarks(BenchmarkNames)]))
  }
}
