/** The observable side effects of a handler, in the order it performs them:
    status updates, data published on a relation, collaborator calls. */
module Effects {

  import opened Wrappers

  datatype Severity = Blocked | Maintenance | Waiting | Active

  datatype Status = Status(severity: Severity, message: string)

  /** The relations a handler can publish to. */
  datatype Peer = Namenode | Nodemanager | Client | Benchmark

  /** What a `send_*` / `set_local_spec` / `register` call publishes. */
  datatype Payload =
    | ResourceManagers(addresses: seq<string>)
    | PortSet(rmIpc: int, jhHttp: int, jhIpc: int)
    | Spec(spec: map<string, string>)
    | HostsMap(hosts: map<string, string>)
    | SshKey(key: string)
    | ReadyFlag(ready: bool)
    | Benchmarks(names: seq<string>)

  datatype Action =
    | SetStatus(status: Status)
    | Send(to: Peer, payload: Payload)
    | InstallRole(hosts: map<string, string>, roles: string)
    | RestartService(service: string)
    | OpenPort(port: int)
    | Dismiss(peer: Peer)

  /** The payloads published to `p`, in order. */
  function SentTo(acts: seq<Action>, p: Peer): (r: seq<Payload>)
    ensures |r| <= |acts|
    ensures forall x :: x in r <==> Send(p, x) in acts
    decreases |acts|
  {
    if |acts| == 0 then []
    else
      var rest := SentTo(acts[1..], p);
      assert acts == [acts[0]] + acts[1..];
      if acts[0].Send? && acts[0].to == p then [acts[0].payload] + rest else rest
  }

  /** One `send_*` call per payload, in order, all to `to`. */
  function SendAll(to: Peer, ps: seq<Payload>): (acts: seq<Action>)
    ensures |acts| == |ps|
    ensures forall i :: 0 <= i < |ps| ==> acts[i] == Send(to, ps[i])
  {
    seq(|ps|, i requires 0 <= i < |ps| => Send(to, ps[i]))
  }

  lemma {:induction false} SentToSendAll(to: Peer, ps: seq<Payload>)
    ensures SentTo(SendAll(to, ps), to) == ps
    decreases |ps|
  {
    if |ps| > 0 {
      assert SendAll(to, ps)[1..] == SendAll(to, ps[1..]);
      SentToSendAll(to, ps[1..]);
      assert ps == [ps[0]] + ps[1..];
    }
  }

  lemma {:induction false} SentToAppend(a: seq<Action>, b: seq<Action>, p: Peer)
    ensures SentTo(a + b, p) == SentTo(a, p) + SentTo(b, p)
    decreases |a|
  {
    if |a| > 0 {
      assert (a + b)[1..] == a[1..] + b;
      SentToAppend(a[1..], b, p);
    } else {
      assert a + b == b;
    }
  }

  /** The status an operator sees once the actions are done: the last one set. */
  function LastStatus(acts: seq<Action>): (r: Option<Status>)
    ensures r.Some? ==> SetStatus(r.value) in acts
    ensures r.None? <==> NoStatus(acts)
    decreases |acts|
  {
    if |acts| == 0 then None
    else if acts[|acts| - 1].SetStatus? then Some(acts[|acts| - 1].status)
    else
      var r := LastStatus(acts[..|acts| - 1]);
      assert acts == acts[..|acts| - 1] + [acts[|acts| - 1]];
      r
  }

  /** No status update among the actions. */
  predicate NoStatus(acts: seq<Action>) {
    forall a :: a in acts ==> !a.SetStatus?
  }

  /** No collaborator install call among the actions. */
  predicate NoInstall(acts: seq<Action>) {
    forall a :: a in acts ==> !a.InstallRole?
  }
}
