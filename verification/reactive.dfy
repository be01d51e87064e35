/** The handler table of the charm and the runs it allows. The order in which
    the reactive framework dispatches enabled handlers is not modelled: any
    enabled handler may fire next, and the relations may change between any
    two firings. */
module Reactive {

  import opened CharmState
  import Handlers

  datatype Handler =
    | Blocked | InstallResourcemanager | SendNnSpec | StartResourcemanager
    | SendNmInstallInfo | SendNmAllInfo | RemoveNm | WaitForNm
    | SendClientInstallInfo | SendClientAllInfo | RegisterBenchmarks

  /** One `@when` or `@when_not` name. */
  datatype Cond = When(name: StateName) | WhenNot(name: StateName)

  /** The decorators written above each handler. */
  function Decorators(h: Handler): seq<Cond> {
    match h
    case Blocked => [WhenNot(NamenodeJoined)]
    case InstallResourcemanager => [When(PuppetAvailable), When(NamenodeJoined), WhenNot(Installed)]
    case SendNnSpec => [When(Installed), When(NamenodeJoined), WhenNot(NamenodeReady)]
    case StartResourcemanager => [When(Installed), When(NamenodeReady), WhenNot(Started)]
    case SendNmInstallInfo => [When(NamenodeJoined), When(NodemanagerJoined), WhenNot(Installed)]
    case SendNmAllInfo => [When(Started), When(NamenodeReady), When(NodemanagerJoined)]
    case RemoveNm => [When(Started), When(NamenodeReady), When(NodemanagerDeparting)]
    case WaitForNm => [When(Started), When(NamenodeReady), WhenNot(NodemanagerJoined)]
    case SendClientInstallInfo => [When(NamenodeJoined), When(ResourcemanagerClients), WhenNot(Installed)]
    case SendClientAllInfo => [When(Started), When(NamenodeReady), When(ResourcemanagerClients)]
    case RegisterBenchmarks => [When(BenchmarkJoined)]
  }

  predicate Holds(s: State, c: Cond) {
    match c
    case When(n) => IsSet(s, n)
    case WhenNot(n) => !IsSet(s, n)
  }

  /** A handler may run when every one of its decorators holds. */
  predicate Enabled(h: Handler, s: State) {
    forall c :: c in Decorators(h) ==> Holds(s, c)
  }

  /** The decorator table says exactly what each handler function requires. */
  lemma EnabledMeans(h: Handler, s: State)
    ensures Enabled(h, s) <==> (
      match h
      case Blocked => !s.rel.namenodeJoined
      case InstallResourcemanager => s.rel.puppetAvailable && s.rel.namenodeJoined && !s.flags.installed
      case SendNnSpec => s.flags.installed && s.rel.namenodeJoined && !s.rel.namenodeReady
      case StartResourcemanager => s.flags.installed && s.rel.namenodeReady && !s.flags.started
      case SendNmInstallInfo => s.rel.namenodeJoined && s.rel.nodemanagerJoined && !s.flags.installed
      case SendNmAllInfo => s.flags.started && s.rel.namenodeReady && s.rel.nodemanagerJoined
      case RemoveNm => s.flags.started && s.rel.namenodeReady && s.rel.nodemanagerDeparting
      case WaitForNm => s.flags.started && s.rel.namenodeReady && !s.rel.nodemanagerJoined
      case SendClientInstallInfo => s.rel.namenodeJoined && s.rel.clientsJoined && !s.flags.installed
      case SendClientAllInfo => s.flags.started && s.rel.namenodeReady && s.rel.clientsJoined
      case RegisterBenchmarks => s.rel.benchmarkJoined)
  {
    var cs := Decorators(h);
    if |cs| == 3 {
      AllHoldThree(s, cs);
    } else {
      assert cs == [cs[0]] && cs[0] in cs;
    }
  }

  lemma AllHoldThree(s: State, cs: seq<Cond>)
    requires |cs| == 3
    ensures (forall c :: c in cs ==> Holds(s, c)) <==> Holds(s, cs[0]) && Holds(s, cs[1]) && Holds(s, cs[2])
  {
    assert cs == [cs[0], cs[1], cs[2]];
  }

  /** Run handler `h` on `s`. */
  function Fire(h: Handler, s: State): (r: Handlers.Fired)
    requires Enabled(h, s)
    ensures r.state.local == s.local
    ensures h != RemoveNm ==> r.state.rel == s.rel
  {
    EnabledMeans(h, s);
    match h
    case Blocked => Handlers.Blocked(s)
    case InstallResourcemanager => Handlers.InstallResourcemanager(s)
    case SendNnSpec => Handlers.SendNnSpec(s)
    case StartResourcemanager => Handlers.StartResourcemanager(s)
    case SendNmInstallInfo => Handlers.SendNmInstallInfo(s)
    case SendNmAllInfo => Handlers.SendNmAllInfo(s)
    case RemoveNm => Handlers.RemoveNm(s)
    case WaitForNm => Handlers.WaitForNm(s)
    case SendClientInstallInfo => Handlers.SendClientInstallInfo(s)
    case SendClientAllInfo => Handlers.SendClientAllInfo(s)
    case RegisterBenchmarks => Handlers.RegisterBenchmarks(s)
  }

  /** The flag ordering the handlers keep: `started` only once installed,
      `ready` only once started. */
  predicate FlagOrder(f: Flags) {
    (f.started ==> f.installed) && (f.ready ==> f.started)
  }

  /** A freshly deployed unit: none of the charm's own flags is set. */
  predicate Fresh(s: State) {
    !s.flags.installed && !s.flags.started && !s.flags.ready
  }

  /** Units join, publish, become ready or depart: only relation data moves.
      A hook whose collaborator fails persists nothing, which is the case
      where `s' == s`. */
  predicate RelationStep(s: State, s': State) {
    s'.flags == s.flags && s'.hosts == s.hosts && s'.local == s.local
  }

  predicate HandlerStep(s: State, s': State, h: Handler) {
    Enabled(h, s) && s' == Fire(h, s).state
  }

  /** Some enabled handler fires, or the relations change. */
  ghost predicate Next(s: State, s': State) {
    RelationStep(s, s') || exists h :: HandlerStep(s, s', h)
  }

  ghost predicate IsRun(run: seq<State>) {
    |run| >= 1 && forall i :: 0 <= i < |run| - 1 ==> Next(run[i], run[i + 1])
  }

  lemma RunStep(run: seq<State>, i: nat)
    requires IsRun(run) && i < |run| - 1
    ensures Next(run[i], run[i + 1])
  {
  }

  /** No handler lowers `installed` or `started`. */
  lemma FireKeepsProgress(h: Handler, s: State)
    requires Enabled(h, s)
    ensures s.flags.installed ==> Fire(h, s).state.flags.installed
    ensures s.flags.started ==> Fire(h, s).state.flags.started
  {
    EnabledMeans(h, s);
  }

  /** Only `install_resourcemanager` raises `installed`. */
  lemma OnlyInstallSetsInstalled(h: Handler, s: State)
    requires Enabled(h, s)
    requires !s.flags.installed && Fire(h, s).state.flags.installed
    ensures h == InstallResourcemanager
  {
    EnabledMeans(h, s);
  }

  /** Only `start_resourcemanager` raises `started`, and it runs only once installed. */
  lemma OnlyStartSetsStarted(h: Handler, s: State)
    requires Enabled(h, s)
    requires !s.flags.started && Fire(h, s).state.flags.started
    ensures h == StartResourcemanager && s.flags.installed
  {
    EnabledMeans(h, s);
  }

  /** Only `send_nm_all_info` raises `ready`, and it runs only once started. */
  lemma OnlySendNmAllInfoSetsReady(h: Handler, s: State)
    requires Enabled(h, s)
    requires !s.flags.ready && Fire(h, s).state.flags.ready
    ensures h == SendNmAllInfo && s.flags.started
  {
    EnabledMeans(h, s);
  }

  /** Only `wait_for_nm` lowers `ready`. */
  lemma OnlyWaitForNmClearsReady(h: Handler, s: State)
    requires Enabled(h, s)
    requires s.flags.ready && !Fire(h, s).state.flags.ready
    ensures h == WaitForNm
  {
    EnabledMeans(h, s);
  }

  /** Every handler keeps the flag ordering. */
  lemma FireKeepsFlagOrder(h: Handler, s: State)
    requires Enabled(h, s)
    ensures FlagOrder(s.flags) ==> FlagOrder(Fire(h, s).state.flags)
  {
    var f := Fire(h, s).state.flags;
    FireKeepsProgress(h, s);
    if f.started && !s.flags.started {
      OnlyStartSetsStarted(h, s);
    }
    if f.ready && !s.flags.ready {
      OnlySendNmAllInfoSetsReady(h, s);
    }
  }

  lemma NextKeepsFlagOrder(s: State, s': State)
    requires Next(s, s') && FlagOrder(s.flags)
    ensures FlagOrder(s'.flags)
  {
    if !RelationStep(s, s') {
      var h :| HandlerStep(s, s', h);
      FireKeepsFlagOrder(h, s);
    }
  }

  lemma RunStepKeepsFlagOrder(run: seq<State>, i: nat)
    requires IsRun(run) && i < |run| - 1 && FlagOrder(run[i].flags)
    ensures FlagOrder(run[i + 1].flags)
  {
    RunStep(run, i);
    NextKeepsFlagOrder(run[i], run[i + 1]);
  }

  /** A property of flags that each step passes on holds all along a run. */
  lemma {:induction false} FlagOrderAlong(run: seq<State>, j: nat)
    requires j < |run| && FlagOrder(run[0].flags)
    requires forall k :: 0 <= k < j && FlagOrder(run[k].flags) ==> FlagOrder(run[k + 1].flags)
    ensures FlagOrder(run[j].flags)
    decreases j
  {
    if j > 0 {
      FlagOrderAlong(run, j - 1);
    }
  }

  /** Whatever handlers fire and however the relations change in between,
      the flag ordering holds in every state of the run. */
  lemma RunKeepsFlagOrder(run: seq<State>)
    requires IsRun(run) && FlagOrder(run[0].flags)
    ensures forall i :: 0 <= i < |run| ==> FlagOrder(run[i].flags)
  {
    forall k | 0 <= k < |run| - 1 && FlagOrder(run[k].flags)
      ensures FlagOrder(run[k + 1].flags)
    {
      RunStepKeepsFlagOrder(run, k);
    }
    forall i | 0 <= i < |run|
      ensures FlagOrder(run[i].flags)
    {
      FlagOrderAlong(run, i);
    }
  }

  /** A run from a freshly deployed unit never has `started` without
      `installed` nor `ready` without `started`. */
  lemma FreshRunOrdered(run: seq<State>)
    requires IsRun(run) && Fresh(run[0])
    ensures forall i :: 0 <= i < |run| ==> (run[i].flags.started ==> run[i].flags.installed)
    ensures forall i :: 0 <= i < |run| ==> (run[i].flags.ready ==> run[i].flags.started)
  {
    RunKeepsFlagOrder(run);
  }

  lemma NextKeepsProgress(s: State, s': State)
    requires Next(s, s')
    ensures KeepsProgress(s.flags, s'.flags)
  {
    if !RelationStep(s, s') {
      var h :| HandlerStep(s, s', h);
      FireKeepsProgress(h, s);
    }
  }

  /** `installed` and `started` are at least as set in `g` as in `f`. */
  predicate KeepsProgress(f: Flags, g: Flags) {
    (f.installed ==> g.installed) && (f.started ==> g.started)
  }

  lemma RunStepKeepsProgress(run: seq<State>, i: nat)
    requires IsRun(run) && i < |run| - 1
    ensures KeepsProgress(run[i].flags, run[i + 1].flags)
  {
    RunStep(run, i);
    NextKeepsProgress(run[i], run[i + 1]);
  }

  /** Progress carried from step to step is carried from `i` to `j`. */
  lemma {:induction false} ProgressAlong(run: seq<State>, i: nat, j: nat)
    requires i <= j < |run|
    requires forall k :: i <= k < j ==> KeepsProgress(run[k].flags, run[k + 1].flags)
    ensures KeepsProgress(run[i].flags, run[j].flags)
    decreases j - i
  {
    if i < j {
      ProgressAlong(run, i + 1, j);
    }
  }

  /** Once `installed` or `started` is set, it stays set for the rest of the run. */
  lemma RunKeepsProgress(run: seq<State>, i: nat, j: nat)
    requires IsRun(run) && i <= j < |run|
    ensures KeepsProgress(run[i].flags, run[j].flags)
  {
    forall k | i <= k < j
      ensures KeepsProgress(run[k].flags, run[k + 1].flags)
    {
      RunStepKeepsProgress(run, k);
    }
    ProgressAlong(run, i, j);
  }

  /** Handler `h` at its turn in a hook run: it fires only if its
      decorators hold on the state it is given. */
  function Try(h: Handler, s: State): (r: Handlers.Fired)
    ensures FlagOrder(s.flags) ==> FlagOrder(r.state.flags)
    ensures s.flags.installed ==> r.state.flags.installed
    ensures s.flags.started ==> r.state.flags.started
    ensures !Enabled(h, s) ==> r == Handlers.Fired(s, [])
    ensures Enabled(h, s) ==> r == Fire(h, s)
  {
    if Enabled(h, s) then
      FireKeepsProgress(h, s);
      FireKeepsFlagOrder(h, s);
      Fire(h, s)
    else Handlers.Fired(s, [])
  }

  /** One hook run: the handlers are tried in `order`, each seeing the state
      its predecessors left, and the actions of those that fire are
      concatenated. Whatever the order, the flag ordering survives and
      `installed` and `started` are not lost. */
  function RunPass(s: State, order: seq<Handler>): (r: Handlers.Fired)
    ensures FlagOrder(s.flags) ==> FlagOrder(r.state.flags)
    ensures s.flags.installed ==> r.state.flags.installed
    ensures s.flags.started ==> r.state.flags.started
    decreases |order|
  {
    if |order| == 0 then Handlers.Fired(s, [])
    else
      var head := Try(order[0], s);
      var tail := RunPass(head.state, order[1..]);
      Handlers.Fired(tail.state, head.actions + tail.actions)
  }
}
