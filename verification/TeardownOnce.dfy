/**
 * How often a device's teardown packet goes out.  Under the gate it is once in a registered life at
 * most.  Without the gate's discipline it is once for good if the host acknowledged it, and again
 * exactly if it was delivered without an acknowledgement.
 */
module TeardownOnce {
  import opened GuestTypes
  import opened ClusterCodec
  import opened Wire
  import opened GuestState
  import opened RegistryOps
  import opened SubmitOps
  import opened Machine
  import opened Evolution
  import opened SubmitProofs
  import opened SubmitGate
  import opened GateSystem
  import Batching

  /** The teardown packets for device k among the first n entries of a log. */
  function TornUpTo(log: seq<Entry>, n: nat, k: Handle): nat
    requires n <= |log|
  {
    if n == 0 then 0
    else TornUpTo(log, n - 1, k) + if IsTeardown(log[n - 1]) && log[n - 1].device == k then 1 else 0
  }

  function Teardowns(log: seq<Entry>, k: Handle): nat { TornUpTo(log, |log|, k) }

  lemma {:induction false} TornPrefix(log: seq<Entry>, log': seq<Entry>, n: nat, k: Handle)
    requires n <= |log| && log <= log'
    ensures TornUpTo(log', n, k) == TornUpTo(log, n, k)
  {
    if n > 0 { TornPrefix(log, log', n - 1, k); }
  }

  lemma {:induction false} CalmTail(log: seq<Entry>, log': seq<Entry>, n: nat, k: Handle)
    requires |log| <= n <= |log'| && Calm(log, log')
    ensures TornUpTo(log', n, k) == TornUpTo(log', |log|, k)
  {
    if n > |log| { CalmTail(log, log', n - 1, k); }
  }

  lemma CalmCount(log: seq<Entry>, log': seq<Entry>, k: Handle)
    requires Calm(log, log')
    ensures Teardowns(log', k) == Teardowns(log, k)
  {
    TornPrefix(log, log', |log|, k);
    CalmTail(log, log', |log'|, k);
  }

  lemma OneMore(log: seq<Entry>, fd: int, device: Handle, k: Handle)
    ensures Teardowns(log + [Controlled(fd, device, Teardown)], k)
         == Teardowns(log, k) + if device == k then 1 else 0
  {
    TornPrefix(log, log + [Controlled(fd, device, Teardown)], |log|, k);
  }

  // ------------------------------------------------------------- every other event

  predicate TearsDown(e: Event, k: Handle) { e.OfGate? && e.g == TearDown(k) }

  predicate Drops(e: Event, k: Handle) { e.OfRegistry? && e.r == DropDevice(k) }

  predicate SubmitsOn(core: Core, e: Event, k: Handle) {
    e.OfGate? && e.g.Submit? && Owner(core.queueDevices, core.devices, e.g.queue) == Some(k)
  }

  lemma LocalCalm(w: World, w': World, k: Handle)
    requires Local(w, w', k)
    ensures Calm(w.io.log, w'.io.log)
  {
    hide IoOk, Calm, TameDevice;
  }

  lemma StillCalm(log: seq<Entry>)
    ensures Calm(log, log)
  {
  }

  lemma QuietCalm(w: World, w': World)
    requires Quiet(w, w')
    ensures Calm(w.io.log, w'.io.log)
  {
    hide IoOk, Calm, QuietCore;
  }

  lemma DrainEarlyCalm(cfg: Config, w: World, k: Handle)
    requires k in w.core.devices
    ensures Calm(w.io.log, DrainEarly(cfg, w, k).0.io.log)
  {
    hide DrainEarly, Quiet, Calm;
    DrainEarlyQuiet(cfg, w, k);
    QuietCalm(w, DrainEarly(cfg, w, k).0);
  }

  /** Freeing and pool destruction flush first, then drain. */
  lemma FlushedDrainCalm(cfg: Config, w: World, k: Handle)
    ensures Calm(w.io.log, Flush(cfg.net, w.io).0.log)
    ensures k in w.core.devices ==>
              Calm(w.io.log, DrainEarly(cfg, w.(io := Flush(cfg.net, w.io).0), k).0.io.log)
  {
    hide Flush, DrainEarly, Calm, Quiet;
    FlushQuiet(cfg, w);
    var flushed := w.(io := Flush(cfg.net, w.io).0);
    QuietCalm(w, flushed);
    if k in w.core.devices {
      DrainEarlyCalm(cfg, flushed, k);
      CalmThen(w.io.log, flushed.io.log, DrainEarly(cfg, flushed, k).0.io.log);
    }
  }

  lemma RegistryCalm(cfg: Config, w: World, e: RegistryEvent)
    ensures Calm(w.io.log, PerformRegistry(cfg, w, e).io.log)
  {
    hide Calm, Local, DrainEarly, Negotiate, AdvanceRoute, Flush, Repeats, Freeable, Cleared, ClearedStreams, Renewed,
         Quiet;
    StillCalm(w.io.log);
    match e
    case AddDevice(k, fd, page, refused) =>
      var d := FreshDevice(fd, page);
      NegotiateOpen(cfg, WithDevice(w, k, d), k, refused);
      LocalCalm(WithDevice(w, k, d), Negotiate(cfg, WithDevice(w, k, d), k, refused).0, k);
    case AddQueue(k, queue) => if k in w.core.devices { DrainEarlyCalm(cfg, w, k); }
    case DropCommands(k, _, _) => FlushedDrainCalm(cfg, w, k);
    case DropPool(k, _) => FlushedDrainCalm(cfg, w, k);
    case ClearPool(k, pool) => if k in w.core.devices { DrainEarlyCalm(cfg, w, k); }
    case Renew(c, recording) => if OwnerOf(w.core, c).Some? { DrainEarlyCalm(cfg, w, OwnerOf(w.core, c).value); }
    case End(c, route) => EndCalm(cfg, w, c, route);
    case _ =>
  }

  lemma EndCalm(cfg: Config, w: World, c: Handle, route: RouteView)
    ensures Calm(w.io.log, EndCommand(cfg, w, c, route).io.log)
  {
    hide Calm, AdvanceRoute, Quiet;
    StillCalm(w.io.log);
    if OwnerOf(w.core, c).Some? {
      var k := OwnerOf(w.core, c).value;
      var d := w.core.devices[k];
      if c in d.commands {
        var ended := WithDevice(w, k, d.(commands := d.commands[c := Ended(d.commands[c])]));
        AdvanceQuiet(cfg, ended, k, c, route);
        QuietCalm(ended, AdvanceRoute(cfg, ended, k, c, route).0);
      }
    }
  }

  /** No event but a teardown itself puts a teardown packet on the log. */
  lemma StepCalm(cfg: Config, w: World, e: Event)
    requires Good(w) && (e.OfGate? ==> !e.g.TearDown?)
    ensures Calm(w.io.log, Step(cfg, w, e).io.log)
  {
    hide Good, Calm, PerformCall, PerformRegistry, PerformGate, Quiet;
    StillCalm(w.io.log);
    match e
    case OfCall(c) =>
      CallQuiet(cfg, w, c);
      QuietCalm(w, PerformCall(cfg, w, c));
    case OfRegistry(r) => RegistryCalm(cfg, w, r);
    case OfGate(g) => if WaitOver(w.core, g) { GateCalm(cfg, w, g); }
  }

  lemma GateCalm(cfg: Config, w: World, e: GateEvent)
    requires Good(w) && WaitOver(w.core, e) && !e.TearDown?
    ensures Calm(w.io.log, PerformGate(cfg, w, e).io.log)
  {
    hide Good, Calm, Local, Quiet, BeforeSubmit, AfterSubmit, BeginLifecycle, PrepareRetirement;
    StillCalm(w.io.log);
    match e
    case Submit(queue, view) => SubmitCalm(cfg, w, queue, view);
    case Complete(token, ok, view) => CompleteCalm(cfg, w, token, ok, view);
    case Reserve(k) => ReserveCalm(cfg, w, k);
    case Release(k, ok) =>
    case Retire(k, live) =>
      RetireQuiet(cfg, w, k, live);
      QuietCalm(w, PrepareRetirement(cfg, w, k, live).0);
  }

  lemma SubmitCalm(cfg: Config, w: World, queue: Handle, view: SubmitView)
    requires Good(w) && WaitOver(w.core, Submit(queue, view))
    ensures Calm(w.io.log, BeforeSubmit(cfg, w, queue, view).0.io.log)
  {
    hide Good, Calm, Local;
    StillCalm(w.io.log);
    match Owner(w.core.queueDevices, w.core.devices, queue)
    case None =>
    case Some(k) =>
      HeldAt(w, k);
      BeforeSubmitReserves(cfg, w, queue, view, k);
      LocalCalm(w, BeforeSubmit(cfg, w, queue, view).0, k);
  }

  lemma CompleteCalm(cfg: Config, w: World, token: Token, ok: bool, view: AfterView)
    ensures Calm(w.io.log, AfterSubmit(cfg, w, token, ok, view).io.log)
    ensures var core' := AfterSubmit(cfg, w, token, ok, view).core;
            forall k <- w.core.devices ::
              k in core'.devices && (core'.devices[k].exposed ==> w.core.devices[k].exposed)
  {
    hide Calm, ProtocolAfter, KeepsOrder, TameDevice, Held;
    StillCalm(w.io.log);
    var k := token.device;
    if Releases(token) && k in w.core.devices {
      ProtocolAfterFrees(cfg, w, k, token.id, ok, view);
      LocalCalm(w, ProtocolAfter(cfg, w, k, token.id, ok, view), k);
    }
  }

  lemma ReserveCalm(cfg: Config, w: World, k: Handle)
    ensures Calm(w.io.log, BeginLifecycle(cfg, w, k).io.log)
  {
    hide Calm, DrainEarly;
    StillCalm(w.io.log);
    if k in w.core.devices { DrainEarlyCalm(cfg, w, k); }
  }

  // ------------------------------------------------- what keeps a session away

  lemma QuietExposed(core: Core, core': Core, k: Handle)
    requires QuietCore(core, core') && k in core.devices
    ensures k in core'.devices && (core'.devices[k].exposed ==> core.devices[k].exposed)
  {
    hide TameCore;
    assert k in core'.devices by { KeysKept(core, core'); }
    assert QuietDevice(core.devices[k], core'.devices[k]);
  }

  lemma KeysKept(core: Core, core': Core)
    requires TameCore(core, core')
    ensures core'.devices.Keys == core.devices.Keys
  {
  }

  lemma SteadyExposed(core: Core, core': Core, k: Handle)
    requires Steady(core, core') && k in core.devices
    ensures k in core'.devices && (core'.devices[k].exposed ==> core.devices[k].exposed)
  {
    assert k in SlotsOf(core);
  }

  /** Only a submission on it gives a torn-down device a session again. */
  lemma StepExposed(cfg: Config, w: World, e: Event, k: Handle)
    requires Good(w) && k in w.core.devices && !SubmitsOn(w.core, e, k) && !Drops(e, k)
    ensures var core' := Step(cfg, w, e).core;
            k in core'.devices && (core'.devices[k].exposed ==> w.core.devices[k].exposed)
  {
    hide Good, PerformCall, PerformGate, QuietCore, KeepsOrder, Steady, DestroyDevice;
    match e
    case OfCall(c) =>
      CallQuiet(cfg, w, c);
      QuietExposed(w.core, PerformCall(cfg, w, c).core, k);
    case OfRegistry(r) =>
      if r.DropDevice? {
        DropExposed(w.core, r.device, k);
      } else {
        RegistrySteady(cfg, w, r);
        SteadyExposed(w.core, PerformRegistry(cfg, w, r).core, k);
      }
    case OfGate(g) => if WaitOver(w.core, g) { GateExposed(cfg, w, g, k); }
  }

  lemma DropExposed(core: Core, j: Handle, k: Handle)
    requires k in core.devices && j != k
    ensures k in DestroyDevice(core, j).devices && DestroyDevice(core, j).devices[k] == core.devices[k]
  {
  }

  lemma GateExposed(cfg: Config, w: World, e: GateEvent, k: Handle)
    requires Good(w) && WaitOver(w.core, e) && k in w.core.devices && !SubmitsOn(w.core, OfGate(e), k)
    ensures var core' := PerformGate(cfg, w, e).core;
            k in core'.devices && (core'.devices[k].exposed ==> w.core.devices[k].exposed)
  {
    hide Good, BeforeSubmit, AfterSubmit, BeginLifecycle, EndLifecycle, PrepareRetirement, BeforeDestroy, QuietCore,
         KeepsOrder, TornUpTo, Calm;
    match e
    case Submit(queue, view) => SubmitExposed(cfg, w, queue, view, k);
    case Complete(token, ok, view) => CompleteCalm(cfg, w, token, ok, view);
    case Reserve(j) => LifecycleExposed(cfg, w, j, false, k);
    case Release(j, ok) => LifecycleExposed(cfg, w, j, ok, k);
    case Retire(j, live) =>
      RetireQuiet(cfg, w, j, live);
      QuietExposed(w.core, PrepareRetirement(cfg, w, j, live).0.core, k);
    case TearDown(j) => TornExposed(cfg, w, j, k);
  }

  lemma TornExposed(cfg: Config, w: World, j: Handle, k: Handle)
    requires k in w.core.devices
    ensures var core' := BeforeDestroy(cfg, w, j).0.core;
            k in core'.devices && (core'.devices[k].exposed ==> w.core.devices[k].exposed)
  {
    hide DrainEarly, Flush, TornUpTo;
    if j in w.core.devices { TearDownEffect(cfg, w, j, k); }
  }

  lemma LifecycleExposed(cfg: Config, w: World, j: Handle, ok: bool, k: Handle)
    requires k in w.core.devices
    ensures var core' := BeginLifecycle(cfg, w, j).core;
            k in core'.devices && (core'.devices[k].exposed ==> w.core.devices[k].exposed)
    ensures var core' := EndLifecycle(w, j, ok).core;
            k in core'.devices && (core'.devices[k].exposed ==> w.core.devices[k].exposed)
  {
    hide DrainEarly;
    if j in w.core.devices { DrainedAlone(cfg, w, j, k); }
  }

  lemma SubmitExposed(cfg: Config, w: World, queue: Handle, view: SubmitView, k: Handle)
    requires Good(w) && WaitOver(w.core, Submit(queue, view)) && k in w.core.devices
    requires Owner(w.core.queueDevices, w.core.devices, queue) != Some(k)
    ensures var core' := BeforeSubmit(cfg, w, queue, view).0.core;
            k in core'.devices && core'.devices[k] == w.core.devices[k]
  {
    hide Good, KeepsOrder, TameDevice, Held;
    match Owner(w.core.queueDevices, w.core.devices, queue)
    case None =>
    case Some(j) =>
      HeldAt(w, j);
      BeforeSubmitReserves(cfg, w, queue, view, j);
  }

  // --------------------------------------------------------------- one teardown

  /** The device after early routes are drained, when a teardown gets that far. */
  lemma DrainedAlone(cfg: Config, w: World, j: Handle, k: Handle)
    requires j in w.core.devices && k in w.core.devices
    ensures var core' := DrainEarly(cfg, w, j).0.core;
            && j in core'.devices && k in core'.devices
            && (core'.devices[k].exposed ==> w.core.devices[k].exposed)
            && (k != j ==> core'.devices[k] == w.core.devices[k])
  {
    hide DrainEarly, KeepsOrder, TameDevice, Held, QuietCore;
    DrainEarlyOpen(cfg, w, j);
    DrainEarlyQuiet(cfg, w, j);
    QuietExposed(w.core, DrainEarly(cfg, w, j).0.core, k);
  }

  /**
   * A teardown sends at most one packet, its own, and only for an exposed session; a session stays
   * exposed after its packet went out exactly if the packet was not acknowledged.
   */
  lemma TearDownEffect(cfg: Config, w: World, j: Handle, k: Handle)
    requires j in w.core.devices && k in w.core.devices
    ensures var (w', ok) := BeforeDestroy(cfg, w, j);
            var sent := Teardowns(w'.io.log, j) > Teardowns(w.io.log, j);
            && k in w'.core.devices
            && Teardowns(w'.io.log, k) == Teardowns(w.io.log, k) + (if sent && k == j then 1 else 0)
            && (w'.core.devices[k].exposed ==> w.core.devices[k].exposed)
            && (sent ==> w.core.devices[j].exposed)
            && (sent && k == j ==> (w'.core.devices[k].exposed <==> !ok))
            && (ok ==> !w'.core.devices[j].exposed)
  {
    hide DrainEarly, Flush, Calm, TornUpTo;
    DrainedAlone(cfg, w, j, k);
    DrainedAlone(cfg, w, j, j);
    var drained := DrainEarly(cfg, w, j).0;
    DrainEarlyCalm(cfg, w, j);
    CalmCount(w.io.log, drained.io.log, j);
    CalmCount(w.io.log, drained.io.log, k);
    RequestsCalm(cfg.net, drained.io, 0, Call(0, 0, [], false), 0, Route);
    var io := Flush(cfg.net, drained.io).0;
    CalmCount(drained.io.log, io.log, j);
    CalmCount(drained.io.log, io.log, k);
    OneMore(io.log, drained.core.devices[j].fd, j, k);
    OneMore(io.log, drained.core.devices[j].fd, j, j);
  }

  // ------------------------------------------------------------------------ over runs

  /** Event i of a run sends device k's teardown packet. */
  predicate Sends(cfg: Config, w: World, events: seq<Event>, i: nat, k: Handle)
    requires i < |events|
  {
    && TearsDown(events[i], k)
    && Teardowns(Run(cfg, w, events, i + 1).io.log, k) > Teardowns(Run(cfg, w, events, i).io.log, k)
  }

  /** And the host acknowledges it. */
  predicate Acknowledged(cfg: Config, w: World, events: seq<Event>, i: nat, k: Handle)
    requires i < |events|
  {
    Sends(cfg, w, events, i, k) && BeforeDestroy(cfg, Run(cfg, w, events, i), k).1
  }

  /** The teardown packets of the first n events that the host acknowledged, or that it did not. */
  function SentUpTo(cfg: Config, w: World, events: seq<Event>, n: nat, k: Handle, acked: bool): nat
    requires n <= |events|
  {
    if n == 0 then 0
    else
      var last := Sends(cfg, w, events, n - 1, k) && (acked <==> Acknowledged(cfg, w, events, n - 1, k));
      SentUpTo(cfg, w, events, n - 1, k, acked) + if last then 1 else 0
  }

  /** The device stays registered for the first n events. */
  predicate Stays(events: seq<Event>, n: nat, k: Handle)
    requires n <= |events|
  {
    forall i | 0 <= i < n :: !Drops(events[i], k)
  }

  /** No submission on the device follows an acknowledged teardown of it. */
  predicate NoneAfter(cfg: Config, w: World, events: seq<Event>, n: nat, k: Handle)
    requires n <= |events|
  {
    forall i, j | 0 <= i < j < n && Acknowledged(cfg, w, events, i, k) ::
      !SubmitsOn(Run(cfg, w, events, j).core, events[j], k)
  }

  /** Only destruction takes a device away. */
  lemma StepKeeps(cfg: Config, w: World, e: Event, k: Handle)
    requires Good(w) && k in w.core.devices && !Drops(e, k)
    ensures k in Step(cfg, w, e).core.devices
  {
    hide Good, Local, BeforeSubmit, PerformCall, PerformRegistry, Held;
    if SubmitsOn(w.core, e, k) {
      if WaitOver(w.core, e.g) {
        HeldAt(w, k);
        BeforeSubmitReserves(cfg, w, e.g.queue, e.g.before, k);
        InDevices(w, Step(cfg, w, e), k);
      }
    } else {
      StepExposed(cfg, w, e, k);
    }
  }

  /** What one step does to the packets of device k, whichever event it is. */
  lemma StepTeardowns(cfg: Config, w: World, e: Event, k: Handle)
    requires Good(w) && k in w.core.devices
    ensures var w' := Step(cfg, w, e);
            var sent := TearsDown(e, k) && Teardowns(w'.io.log, k) > Teardowns(w.io.log, k);
            && Teardowns(w'.io.log, k) == Teardowns(w.io.log, k) + (if sent then 1 else 0)
            && (sent ==> w.core.devices[k].exposed)
            && (sent && BeforeDestroy(cfg, w, k).1 ==> k in w'.core.devices && !w'.core.devices[k].exposed)
  {
    hide Good, Calm, PerformCall, PerformRegistry, BeforeDestroy, Teardowns;
    if e.OfGate? && e.g.TearDown? {
      if WaitOver(w.core, e.g) { TornSteps(cfg, w, e.g.device, k); }
    } else {
      StepCalm(cfg, w, e);
      CalmCount(w.io.log, Step(cfg, w, e).io.log, k);
    }
  }

  lemma TornSteps(cfg: Config, w: World, j: Handle, k: Handle)
    requires k in w.core.devices
    ensures var (w', ok) := BeforeDestroy(cfg, w, j);
            var sent := j == k && Teardowns(w'.io.log, k) > Teardowns(w.io.log, k);
            && Teardowns(w'.io.log, k) == Teardowns(w.io.log, k) + (if sent then 1 else 0)
            && (sent ==> w.core.devices[k].exposed)
            && (sent && ok ==> k in w'.core.devices && !w'.core.devices[k].exposed)
  {
    hide DrainEarly, Flush, Teardowns;
    if j in w.core.devices { TearDownEffect(cfg, w, j, k); }
  }

  /** An acknowledged teardown leaves no session, and only a submission could bring one back. */
  lemma {:induction false} NoSessionAfter(
      cfg: Config, w: World, events: seq<Event>, n: nat, k: Handle, i: nat)
    requires Good(w) && k in w.core.devices && i < n <= |events|
    requires Stays(events, n, k) && NoneAfter(cfg, w, events, n, k) && Acknowledged(cfg, w, events, i, k)
    ensures var core := Run(cfg, w, events, n).core; k in core.devices && !core.devices[k].exposed
  {
    hide Good, Step, BeforeDestroy, Teardowns;
    var before := Run(cfg, w, events, n - 1);
    InWindow(cfg, w, events, n - 1, k);
    if i == n - 1 {
      StepTeardowns(cfg, before, events[n - 1], k);
    } else {
      NoSessionAfter(cfg, w, events, n - 1, k, i);
      StepExposed(cfg, before, events[n - 1], k);
    }
  }

  lemma {:induction false} InWindow(cfg: Config, w: World, events: seq<Event>, n: nat, k: Handle)
    requires Good(w) && k in w.core.devices && n <= |events| && Stays(events, n, k)
    ensures Good(Run(cfg, w, events, n)) && k in Run(cfg, w, events, n).core.devices
  {
    hide Good, Step;
    RunGood(cfg, w, events, n);
    if n > 0 {
      InWindow(cfg, w, events, n - 1, k);
      StepKeeps(cfg, Run(cfg, w, events, n - 1), events[n - 1], k);
    }
  }

  /** No teardown packet for a device follows an acknowledged one, submissions on it aside. */
  lemma AckedIsLast(cfg: Config, w: World, events: seq<Event>, n: nat, k: Handle, i: nat, j: nat)
    requires Good(w) && k in w.core.devices && i < j < n <= |events|
    requires Stays(events, n, k) && NoneAfter(cfg, w, events, n, k) && Acknowledged(cfg, w, events, i, k)
    ensures !Sends(cfg, w, events, j, k)
  {
    hide Good, Step, Run, BeforeDestroy, Teardowns, Acknowledged;
    NoSessionAfter(cfg, w, events, j, k, i);
    InWindow(cfg, w, events, j, k);
    RunStep(cfg, w, events, j);
    StepTeardowns(cfg, Run(cfg, w, events, j), events[j], k);
  }

  lemma RunStep(cfg: Config, w: World, events: seq<Event>, n: nat)
    requires n < |events|
    ensures Run(cfg, w, events, n + 1) == Step(cfg, Run(cfg, w, events, n), events[n])
  {
    hide Step;
  }

  /** Every packet on the log went out by a teardown event, acknowledged or not. */
  lemma {:induction false} TeardownsCounted(cfg: Config, w: World, events: seq<Event>, n: nat, k: Handle)
    requires Good(w) && k in w.core.devices && n <= |events| && Stays(events, n, k)
    ensures Teardowns(Run(cfg, w, events, n).io.log, k)
         == Teardowns(w.io.log, k) + SentUpTo(cfg, w, events, n, k, false) + SentUpTo(cfg, w, events, n, k, true)
  {
    hide Good, Step, BeforeDestroy, Teardowns;
    if n > 0 {
      TeardownsCounted(cfg, w, events, n - 1, k);
      InWindow(cfg, w, events, n - 1, k);
      StepTeardowns(cfg, Run(cfg, w, events, n - 1), events[n - 1], k);
    }
  }

  /** At most one of them is acknowledged. */
  lemma {:induction false} OneAcknowledged(cfg: Config, w: World, events: seq<Event>, n: nat, k: Handle)
    requires Good(w) && k in w.core.devices && n <= |events|
    requires Stays(events, n, k) && NoneAfter(cfg, w, events, n, k)
    ensures SentUpTo(cfg, w, events, n, k, true) <= 1
    ensures SentUpTo(cfg, w, events, n, k, true) == 1 ==>
              exists i | 0 <= i < n :: Acknowledged(cfg, w, events, i, k)
  {
    hide Good, Run, Sends, Acknowledged;
    if n > 0 {
      OneAcknowledged(cfg, w, events, n - 1, k);
      if SentUpTo(cfg, w, events, n - 1, k, true) == 1 {
        var i :| 0 <= i < n - 1 && Acknowledged(cfg, w, events, i, k);
        AckedIsLast(cfg, w, events, n, k, i, n - 1);
      }
    }
  }

  /**
   * While device k stays registered and no submission on it follows an acknowledged teardown, the
   * log gains one teardown packet for every delivery the host did not acknowledge, and at most one
   * more; once one was acknowledged there are no others after it.  This is for any network.
   */
  lemma TeardownOnce(cfg: Config, w: World, events: seq<Event>, n: nat, k: Handle)
    requires Good(w) && k in w.core.devices && n <= |events|
    requires Stays(events, n, k) && NoneAfter(cfg, w, events, n, k)
    ensures var gained := Teardowns(Run(cfg, w, events, n).io.log, k) - Teardowns(w.io.log, k);
            var inDoubt := SentUpTo(cfg, w, events, n, k, false);
            && inDoubt <= gained <= inDoubt + 1
            && (gained == inDoubt + 1 <==> exists i | 0 <= i < n :: Acknowledged(cfg, w, events, i, k))
    ensures forall i, j | 0 <= i < j < n && Acknowledged(cfg, w, events, i, k) :: !Sends(cfg, w, events, j, k)
  {
    hide Good, Run, Teardowns, Sends, Acknowledged;
    TeardownsCounted(cfg, w, events, n, k);
    OneAcknowledged(cfg, w, events, n, k);
    if i :| 0 <= i < n && Acknowledged(cfg, w, events, i, k) { AckedCounts(cfg, w, events, n, k, i); }
    forall i, j | 0 <= i < j < n && Acknowledged(cfg, w, events, i, k) ensures !Sends(cfg, w, events, j, k) {
      AckedIsLast(cfg, w, events, n, k, i, j);
    }
  }

  lemma {:induction false} AckedCounts(cfg: Config, w: World, events: seq<Event>, n: nat, k: Handle, i: nat)
    requires i < n <= |events| && Acknowledged(cfg, w, events, i, k)
    ensures SentUpTo(cfg, w, events, n, k, true) >= 1
  {
    hide Run, Teardowns, BeforeDestroy;
    if i < n - 1 { AckedCounts(cfg, w, events, n - 1, k, i); }
  }

  /** A host that acknowledges what it is sent gets at most one. */
  lemma TeardownAcked(cfg: Config, w: World, events: seq<Event>, n: nat, k: Handle)
    requires Batching.AllAcks(cfg.net)
    requires Good(w) && k in w.core.devices && n <= |events|
    requires Stays(events, n, k) && NoneAfter(cfg, w, events, n, k)
    ensures Teardowns(Run(cfg, w, events, n).io.log, k) <= Teardowns(w.io.log, k) + 1
  {
    hide Good, Run, Teardowns, Sends, Acknowledged;
    TeardownOnce(cfg, w, events, n, k);
    NoneInDoubt(cfg, w, events, n, k);
  }

  lemma {:induction false} NoneInDoubt(cfg: Config, w: World, events: seq<Event>, n: nat, k: Handle)
    requires Batching.AllAcks(cfg.net)
    requires Good(w) && k in w.core.devices && n <= |events| && Stays(events, n, k)
    ensures SentUpTo(cfg, w, events, n, k, false) == 0
  {
    hide Good, Step, BeforeDestroy, Teardowns;
    if n > 0 {
      NoneInDoubt(cfg, w, events, n - 1, k);
      InWindow(cfg, w, events, n - 1, k);
      if Sends(cfg, w, events, n - 1, k) { SentAcked(cfg, Run(cfg, w, events, n - 1), events[n - 1], k); }
    }
  }

  lemma SentAcked(cfg: Config, w: World, e: Event, k: Handle)
    requires Batching.AllAcks(cfg.net) && k in w.core.devices && TearsDown(e, k)
    requires Teardowns(Step(cfg, w, e).io.log, k) > Teardowns(w.io.log, k)
    ensures BeforeDestroy(cfg, w, k).1
  {
    hide DrainEarly, Flush, Calm, Teardowns;
    DrainEarlyCalm(cfg, w, k);
    var drained := DrainEarly(cfg, w, k).0;
    CalmCount(w.io.log, drained.io.log, k);
    RequestsCalm(cfg.net, drained.io, 0, Call(0, 0, [], false), 0, Route);
    CalmCount(drained.io.log, Flush(cfg.net, drained.io).0.log, k);
  }

  /**
   * After a teardown packet went out, asking again sends another one exactly if the first was not
   * acknowledged and the next request is delivered.
   */
  lemma SentAgain(cfg: Config, w: World, k: Handle)
    requires k in w.core.devices
    requires Teardowns(BeforeDestroy(cfg, w, k).0.io.log, k) > Teardowns(w.io.log, k)
    ensures var (once, ok) := BeforeDestroy(cfg, w, k);
            var again := Teardowns(BeforeDestroy(cfg, once, k).0.io.log, k) > Teardowns(once.io.log, k);
            again <==> !ok && Delivered(cfg.net(once.io.rpcs))
  {
    hide FallbackOrFail, Calm, Teardowns;
    DrainEarlyCalm(cfg, w, k);
    var (drained, gone) := DrainEarly(cfg, w, k);
    CalmCount(w.io.log, drained.io.log, k);
    RequestsCalm(cfg.net, drained.io, 0, Call(0, 0, [], false), 0, Route);
    CalmCount(drained.io.log, Flush(cfg.net, drained.io).0.log, k);
    DrainedEarly(cfg, w, k);
    var once := BeforeDestroy(cfg, w, k).0;
    OneMore(once.io.log, once.core.devices[k].fd, k, k);
  }

  const DOUBTFUL_ONCE: Net := n => if n == 1 then InDoubt else Acked
  const TORN_TWICE := [OfRegistry(AddDevice(1, 0, true, false)), OfGate(TearDown(1)), OfGate(TearDown(1))]

  /** One delivery without an acknowledgement, and the driver asking twice: two packets. */
  lemma TornTwice()
    ensures Teardowns(Run(Config(DOUBTFUL_ONCE, true), INITIAL_WORLD, TORN_TWICE, 3).io.log, 1) == 2
  {
    var cfg := Config(DOUBTFUL_ONCE, true);
    var w := Step(cfg, INITIAL_WORLD, TORN_TWICE[0]);
    assert INITIAL_IO.log + [Controlled(0, 1, Capabilities)] == [Controlled(0, 1, Capabilities)];
    assert w.io == INITIAL_IO.(wire := [Flime(0, 1, Capabilities)], log := [Controlled(0, 1, Capabilities)], rpcs := 1);
    assert TornUpTo(w.io.log, 0, 1) == 0;
    RunStep(cfg, INITIAL_WORLD, TORN_TWICE, 0);
    RunStep(cfg, INITIAL_WORLD, TORN_TWICE, 1);
    RunStep(cfg, INITIAL_WORLD, TORN_TWICE, 2);
    OneMore(w.io.log, 0, 1, 1);
    TornOnto(cfg, w);
    TornOnto(cfg, Step(cfg, w, OfGate(TearDown(1))));
  }

  /** A teardown over an empty cluster on a session with no early route, whose packet is delivered. */
  lemma TornOnto(cfg: Config, w: World)
    requires 1 in w.core.devices && Delivered(cfg.net(w.io.rpcs)) && w.io.cluster == EMPTY_CLUSTER
    requires var d := w.core.devices[1]; d.fd == 0 && d.exposed && !d.early && !d.active && d.lifecycle == 0
    ensures var w' := Step(cfg, w, OfGate(TearDown(1)));
            && w'.io == w.io.(log := w'.io.log, wire := w'.io.wire, rpcs := w.io.rpcs + 1)
            && Teardowns(w'.io.log, 1) == Teardowns(w.io.log, 1) + 1
            && w'.core == SetDevice(w.core, 1, if cfg.net(w.io.rpcs) == Acked
                                               then TornDown(w.core.devices[1]) else w.core.devices[1].(failed := true))
  {
    OneMore(w.io.log, 0, 1, 1);
    assert Step(cfg, w, OfGate(TearDown(1))).io.log == w.io.log + [Controlled(0, 1, Teardown)];
  }

  const ACKING: Config := Config(n => Acked, true)
  const UNBUILT: SubmitView := SubmitView(
    false, false, true, false, false, false, false, false, false, false, false, false, Accepted, false, false, false, false)
  const TORN_SUBMITTED_TORN: seq<Event> := [
    OfRegistry(AddDevice(1, 0, true, false)), OfRegistry(AddQueue(1, 7)),
    OfGate(TearDown(1)), OfGate(Submit(7, UNBUILT)), OfGate(TearDown(1))]

  /** A submission after an acknowledged teardown opens a session again, to be torn down again. */
  lemma TornRevived()
    ensures Teardowns(Run(ACKING, INITIAL_WORLD, TORN_SUBMITTED_TORN, 5).io.log, 1) == 2
  {
    var w1 := Step(ACKING, INITIAL_WORLD, TORN_SUBMITTED_TORN[0]);
    assert INITIAL_IO.log + [Controlled(0, 1, Capabilities)] == [Controlled(0, 1, Capabilities)];
    assert w1.io == INITIAL_IO.(wire := [Flime(0, 1, Capabilities)], log := [Controlled(0, 1, Capabilities)], rpcs := 1);
    assert TornUpTo(w1.io.log, 0, 1) == 0;
    var w2 := Step(ACKING, w1, TORN_SUBMITTED_TORN[1]);
    TornOnto(ACKING, w2);
    var w3 := Step(ACKING, w2, TORN_SUBMITTED_TORN[2]);
    Revived(w3);
    var w4 := Step(ACKING, w3, TORN_SUBMITTED_TORN[3]);
    TornOnto(ACKING, w4);
    RunStep(ACKING, INITIAL_WORLD, TORN_SUBMITTED_TORN, 0);
    RunStep(ACKING, INITIAL_WORLD, TORN_SUBMITTED_TORN, 1);
    RunStep(ACKING, INITIAL_WORLD, TORN_SUBMITTED_TORN, 2);
    RunStep(ACKING, INITIAL_WORLD, TORN_SUBMITTED_TORN, 3);
    RunStep(ACKING, INITIAL_WORLD, TORN_SUBMITTED_TORN, 4);
  }

  lemma Revived(w: World)
    requires 1 in w.core.devices && w.io.cluster == EMPTY_CLUSTER
    requires w.core.queueDevices == map[7 := 1]
    requires var d := w.core.devices[1];
             && d.fd == 0 && d.queue == 0 && !d.failed && !d.negotiated && d.stage == Detect
             && !d.early && !d.active && d.lifecycle == 0
    ensures var w', d := Step(ACKING, w, OfGate(Submit(7, UNBUILT))), w.core.devices[1];
            && w'.io.cluster == EMPTY_CLUSTER && Teardowns(w'.io.log, 1) == Teardowns(w.io.log, 1)
            && w'.core == SetDevice(w.core, 1, d.(queue := 7, exposed := true, negotiated := true))
  {
    hide ProtocolBefore, PrepareFallback, DrainEarly, Negotiate, TornUpTo;
    RenewedSession(WithDevice(w, 1, w.core.devices[1].(queue := 7)));
    var w' := Step(ACKING, w, OfGate(Submit(7, UNBUILT)));
    CalmCount(w.io.log, w'.io.log, 1);
  }

  lemma RenewedSession(w: World)
    requires 1 in w.core.devices && w.io.cluster == EMPTY_CLUSTER && w.core.devices[1].fd == 0
    ensures var (w', ok) := Negotiate(ACKING, w, 1, false);
            && ok && w'.io.cluster == EMPTY_CLUSTER && Calm(w.io.log, w'.io.log)
            && w'.core == SetDevice(w.core, 1, w.core.devices[1].(exposed := true, negotiated := true, stage := Detect))
  {
  }

  // ---------------------------------------------------------------- under the gate

  predicate BeingDestroyed(s: System, k: Handle) {
    exists t <- s.threads :: s.threads[t] == Destroying(k)
  }

  lemma StillDestroyed(s: System, s': System, t: nat, k: Handle)
    requires t in s'.threads && s'.threads[t] == Destroying(k)
    ensures BeingDestroyed(s', k)
  {
  }

  /**
   * One action keeps the count, or a thread goes ahead with the teardown of a device nobody is
   * destroying; whoever destroys a device goes on until the device is gone.
   */
  lemma ActTeardowns(cfg: Config, s: System, a: Action, k: Handle)
    requires SystemOk(s) && k in s.world.core.devices && k in Act(cfg, s, a).world.core.devices
    ensures var s' := Act(cfg, s, a);
            var before, after := Teardowns(s.world.io.log, k), Teardowns(s'.world.io.log, k);
            && before <= after <= before + 1
            && (after != before ==> !BeingDestroyed(s, k) && BeingDestroyed(s', k))
            && (BeingDestroyed(s, k) ==> BeingDestroyed(s', k))
  {
    hide Good, GateOk, Calm, Teardowns, Pass, Step, AfterSubmit, EndLifecycle, Aimed, MayStart;
    var s' := Act(cfg, s, a);
    if a.Try? {
      TryTeardowns(cfg, s, a.t, a.before, k);
    } else if a.Finish? {
      FinishTeardowns(cfg, s, a.t, a.ok, a.after, k);
    } else {
      if a.Elsewhere? && Free(a.e) {
        StepCalm(cfg, s.world, a.e);
        CalmCount(s.world.io.log, s'.world.io.log, k);
      }
      if BeingDestroyed(s, k) {
        var t :| t in s.threads && s.threads[t] == Destroying(k);
        StillDestroyed(s, s', t, k);
      }
    }
  }

  lemma FinishTeardowns(cfg: Config, s: System, t: nat, ok: bool, view: AfterView, k: Handle)
    requires SystemOk(s) && k in s.world.core.devices && k in Act(cfg, s, Finish(t, ok, view)).world.core.devices
    ensures var s' := Act(cfg, s, Finish(t, ok, view));
            && Teardowns(s'.world.io.log, k) == Teardowns(s.world.io.log, k)
            && (BeingDestroyed(s, k) ==> BeingDestroyed(s', k))
  {
    hide Good, GateOk, Calm, Teardowns, AfterSubmit;
    var s' := Act(cfg, s, Finish(t, ok, view));
    if PhaseOf(s, t).Submitting? {
      CompleteCalm(cfg, s.world, s.threads[t].token, ok, view);
      CalmCount(s.world.io.log, s'.world.io.log, k);
    }
    if BeingDestroyed(s, k) {
      var u :| u in s.threads && s.threads[u] == Destroying(k);
      assert u != t;
      StillDestroyed(s, s', u, k);
    }
  }

  lemma TryTeardowns(cfg: Config, s: System, t: nat, view: SubmitView, k: Handle)
    requires SystemOk(s) && k in s.world.core.devices
    ensures var s' := Act(cfg, s, Try(t, view));
            var before, after := Teardowns(s.world.io.log, k), Teardowns(s'.world.io.log, k);
            && before <= after <= before + 1
            && (after != before ==> !BeingDestroyed(s, k) && BeingDestroyed(s', k))
            && (BeingDestroyed(s, k) ==> BeingDestroyed(s', k))
  {
    hide Good, GateOk, Calm, Teardowns, Pass, WaitsFor;
    var s', p := Act(cfg, s, Try(t, view)), PhaseOf(s, t);
    if p.Waiting? && !p.parked && p.goal.device in s.world.core.devices
      && !WaitsFor(SlotIn(s.world.core.devices[p.goal.device]), p.goal) {
      PassTeardowns(cfg, s, t, view, k);
    }
    if BeingDestroyed(s, k) {
      var u :| u in s.threads && s.threads[u] == Destroying(k);
      PassOthers(cfg, s, t, view, u);
      StillDestroyed(s, s', u, k);
    }
  }

  lemma PassOthers(cfg: Config, s: System, t: nat, view: SubmitView, u: nat)
    requires u in s.threads && !s.threads[u].Waiting?
    ensures var s' := Act(cfg, s, Try(t, view)); u in s'.threads && s'.threads[u] == s.threads[u]
  {
    hide BeforeSubmit, BeginLifecycle, BeforeDestroy;
  }

  /** A passed wait sends a teardown packet only on the way into Destroying. */
  lemma PassTeardowns(cfg: Config, s: System, t: nat, view: SubmitView, k: Handle)
    requires SystemOk(s) && k in s.world.core.devices && t in s.threads && s.threads[t].Waiting?
    requires var goal := s.threads[t].goal;
             goal.device in s.world.core.devices && !WaitsFor(SlotIn(s.world.core.devices[goal.device]), goal)
    ensures var s' := Pass(cfg, s, t, s.threads[t].goal, view);
            var before, after := Teardowns(s.world.io.log, k), Teardowns(s'.world.io.log, k);
            && before <= after <= before + 1
            && (after != before ==> !BeingDestroyed(s, k) && BeingDestroyed(s', k))
  {
    hide Good, GateOk, Calm, Teardowns, BeforeSubmit, BeginLifecycle, BeforeDestroy;
    var w, s' := s.world, Pass(cfg, s, t, s.threads[t].goal, view);
    assert Aimed(w.core, s.threads[t].goal);
    match s.threads[t].goal
    case ToSubmit(queue, j) =>
      SubmitCalm(cfg, w, queue, view);
      CalmCount(w.io.log, s'.world.io.log, k);
    case ToReserve(j) =>
      ReserveCalm(cfg, w, j);
      CalmCount(w.io.log, s'.world.io.log, k);
    case ToDestroy(j) =>
      TornSteps(cfg, w, j, k);
      if j == k {
        StillDestroyed(s', s', t, k);
        AloneOn(s, t, k);
      }
  }

  /** Nobody is destroying a device somebody waits for. */
  lemma AloneOn(s: System, t: nat, k: Handle)
    requires SystemOk(s) && t in s.threads && WaitsOn(s.threads[t], k)
    ensures !BeingDestroyed(s, k)
  {
    hide Good;
    GateParts(s);
  }

  /**
   * With every submission, reservation and teardown going through the gate, a device's teardown
   * packet goes out at most once for as long as the device stays registered, over any network.
   */
  lemma {:induction false} TeardownsUnderGate(
      cfg: Config, s: System, actions: seq<Action>, n: nat, k: Handle)
    requires n <= |actions| && SystemOk(s)
    requires forall i | 0 <= i <= n :: k in Steps(cfg, s, actions, i).world.core.devices
    ensures var s', before := Steps(cfg, s, actions, n), Teardowns(s.world.io.log, k);
            var after := Teardowns(s'.world.io.log, k);
            && before <= after <= before + 1
            && (after != before ==> !BeingDestroyed(s, k) && BeingDestroyed(s', k))
            && (BeingDestroyed(s, k) ==> BeingDestroyed(s', k))
  {
    hide SystemOk, Act, Teardowns, BeingDestroyed;
    if n > 0 {
      TeardownsUnderGate(cfg, s, actions, n - 1, k);
      StepsOk(cfg, s, actions, n - 1);
      assert k in Steps(cfg, s, actions, n).world.core.devices;
      ActTeardowns(cfg, Steps(cfg, s, actions, n - 1), actions[n - 1], k);
    }
  }
}
