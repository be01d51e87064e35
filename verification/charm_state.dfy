/** The state the resourcemanager charm's handlers read and write: its own
    progress flags, the states its relation interfaces raise, the data those
    relations carry, its key/value host map, and facts about the local machine
    that the handlers obtain from collaborators. */
module CharmState {

  /** The charm's own flags, `apache-bigtop-resourcemanager.{installed,started,ready}`. */
  datatype Flags = Flags(installed: bool, started: bool, ready: bool)

  /** What the relations show on the current hook run. The booleans are the
      states the interface layers raise; the rest is the data the handlers read.
      `namenodeFqdn` is `namenodes()[0]`, with "" standing for a falsy value
      (not yet published). `nodemanagerNodes` is `nodes()` of the joined
      conversations, `nodemanagerLeaving` is `nodes()` of the departing ones,
      and `nodemanagerHosts` is `hosts_map()`. */
  datatype Relations = Relations(
    puppetAvailable: bool,
    namenodeJoined: bool,
    namenodeReady: bool,
    namenodeFqdn: string,
    nodemanagerJoined: bool,
    nodemanagerDeparting: bool,
    nodemanagerNodes: seq<string>,
    nodemanagerLeaving: seq<string>,
    nodemanagerHosts: map<string, string>,
    clientsJoined: bool,
    benchmarkJoined: bool)

  /** The resourcemanager IPC, job-history web and job-history IPC ports of the layer options. */
  datatype Ports = Ports(rmIpc: int, jhHttp: int, jhIpc: int)

  /** Facts about this machine: the `facter fqdn` answer (already stripped), the
      entry `initialize_kv_host` records for this unit, the bigtop spec, the
      configured ports and the ports the layer exposes for the resourcemanager. */
  datatype Local = Local(
    fqdn: string,
    unitHost: string,
    unitAddress: string,
    spec: map<string, string>,
    ports: Ports,
    exposedPorts: seq<int>)

  /** Everything a handler can observe; `hosts` is the key/value host map. */
  datatype State = State(flags: Flags, rel: Relations, hosts: map<string, string>, local: Local)

  /** The state names the handlers' decorators mention. */
  datatype StateName =
    | Installed | Started | Ready
    | PuppetAvailable | NamenodeJoined | NamenodeReady
    | NodemanagerJoined | NodemanagerDeparting
    | ResourcemanagerClients | BenchmarkJoined

  /** `is_state(name)` on a state. */
  predicate IsSet(s: State, n: StateName) {
    match n
    case Installed => s.flags.installed
    case Started => s.flags.started
    case Ready => s.flags.ready
    case PuppetAvailable => s.rel.puppetAvailable
    case NamenodeJoined => s.rel.namenodeJoined
    case NamenodeReady => s.rel.namenodeReady
    case NodemanagerJoined => s.rel.nodemanagerJoined
    case NodemanagerDeparting => s.rel.nodemanagerDeparting
    case ResourcemanagerClients => s.rel.clientsJoined
    case BenchmarkJoined => s.rel.benchmarkJoined
  }
}
