/**
 * The submission gate as a protocol between threads: who may hold a device, who waits for it, and
 * who still owes a notification.  A device appears here only as a slot; the transport behind the
 * slots is added in module GateSystem.
 */
module SubmitGate {
  import opened GuestTypes
  import opened SubmitOps

  /**
   * The part of a device the gate is about; number and mode only matter while it is active, and
   * exposed says whether a session is there to be torn down.
   */
  datatype Slot = Slot(active: bool, number: u64, specialized: bool, lifecycle: nat, exposed: bool)

  datatype Goal = ToSubmit(queue: Handle, device: Handle) | ToReserve(device: Handle) | ToDestroy(device: Handle)

  /**
   * Where a thread is.  A waiting thread is parked once it has found its condition true; Announcing
   * is between a releasing critical section and the notification that follows it.
   */
  datatype Phase =
    | Idle
    | Waiting(goal: Goal, parked: bool)
    | Submitting(token: Token)
    | InLifecycle(device: Handle)
    | Announcing
    | Destroying(device: Handle)

  type Threads = map<nat, Phase>

  type Slots = map<Handle, Slot>

  predicate WaitsFor(s: Slot, goal: Goal) {
    match goal
    case ToReserve(_) => s.active
    case _ => s.active || s.lifecycle != 0
  }

  /** The thread will release device k. */
  predicate HoldsDevice(p: Phase, k: Handle) {
    p.Submitting? && Releases(p.token) && p.token.device == k
  }

  predicate WaitsOn(p: Phase, k: Handle) { p.Waiting? && p.goal.device == k }

  function Reservers(threads: Threads, k: Handle): set<nat> {
    set t | t in threads && threads[t] == InLifecycle(k)
  }

  predicate Announced(threads: Threads) { exists t <- threads :: threads[t].Announcing? }

  // -------------------------------------------------------------------- invariant

  /** What a thread's phase says about the slots. */
  predicate ThreadOk(slots: Slots, p: Phase) {
    match p
    case Waiting(goal, _) => goal.device in slots
    case Submitting(token) =>
      && !(token.specialized && token.fallback)
      && (Releases(token) ==>
            && token.device in slots && slots[token.device].active
            && slots[token.device].number == token.id && slots[token.device].specialized == token.specialized)
    case InLifecycle(k) => k in slots
    case Destroying(k) => k in slots
    case _ => true
  }

  predicate AllThreadsOk(slots: Slots, threads: Threads) {
    forall t <- threads :: ThreadOk(slots, threads[t])
  }

  /** At most one submission holds a device. */
  predicate OneHolder(threads: Threads) {
    forall t <- threads, u <- threads ::
      (threads[t].Submitting? && HoldsDevice(threads[t], threads[t].token.device) &&
       HoldsDevice(threads[u], threads[t].token.device)) ==> t == u
  }

  /** An active slot is held by some thread, and excludes lifecycle reservations, which are counted. */
  predicate SlotOk(s: Slot, threads: Threads, k: Handle) {
    && (s.active ==> exists t <- threads :: HoldsDevice(threads[t], k))
    && s.lifecycle == |Reservers(threads, k)|
    && !(s.active && s.lifecycle > 0)
  }

  predicate AllSlotsOk(slots: Slots, threads: Threads) { forall k <- slots :: SlotOk(slots[k], threads, k) }

  /** A parked thread whose condition has become false has a notification coming. */
  predicate NoLostWakeup(slots: Slots, threads: Threads) {
    forall t <- threads :: Asleep(slots, threads[t]) ==> Announced(threads)
  }

  /** Parked although the condition it waits on has become false. */
  predicate Asleep(slots: Slots, p: Phase) {
    p.Waiting? && p.parked && p.goal.device in slots && !WaitsFor(slots[p.goal.device], p.goal)
  }

  /** A device past its teardown is nobody else's, and one waiting for it has no other waiter. */
  predicate Destroyed(threads: Threads) {
    forall t <- threads, u <- threads :: t != u ==>
      && (threads[t].Destroying? ==> !Uses(threads[u], threads[t].device))
      && (threads[t].Waiting? && threads[t].goal.ToDestroy? ==> !WaitsOn(threads[u], threads[t].goal.device))
  }

  predicate Uses(p: Phase, k: Handle) {
    WaitsOn(p, k) || HoldsDevice(p, k) || p == InLifecycle(k) || p == Destroying(k)
  }

  predicate GateOk(slots: Slots, threads: Threads) {
    && AllThreadsOk(slots, threads)
    && OneHolder(threads)
    && AllSlotsOk(slots, threads)
    && NoLostWakeup(slots, threads)
    && Destroyed(threads)
  }

  // ---------------------------------------------------------------- one thread moves

  /** Thread t goes from its phase to p while slot k, if it is given, becomes s. */
  function Moved(threads: Threads, t: nat, p: Phase): Threads { threads[t := p] }

  lemma ReserversMoved(threads: Threads, t: nat, p: Phase, k: Handle)
    requires t in threads
    ensures var before, after := Reservers(threads, k), Reservers(Moved(threads, t, p), k);
            && (threads[t] == InLifecycle(k) ==> t in before)
            && |after| == |before| - (if threads[t] == InLifecycle(k) then 1 else 0) + (if p == InLifecycle(k) then 1 else 0)
  {
    var before, after := Reservers(threads, k), Reservers(Moved(threads, t, p), k);
    assert after - {t} == before - {t};
    assert t in before <==> threads[t] == InLifecycle(k);
    assert t in after <==> p == InLifecycle(k);
    if t in before { assert |before - {t}| == |before| - 1; } else { assert before - {t} == before; }
    if t in after { assert |after - {t}| == |after| - 1; } else { assert after - {t} == after; }
  }

  /** A phase that neither holds nor reserves a slot. */
  predicate Light(p: Phase) {
    p.Idle? || p.Announcing? || (p.Submitting? && !Releases(p.token)) || p.Waiting? || p.Destroying?
  }

  lemma LightSlots(slots: Slots, threads: Threads, t: nat, p: Phase)
    requires AllSlotsOk(slots, threads) && t in threads && Light(threads[t]) && Light(p)
    ensures AllSlotsOk(slots, Moved(threads, t, p))
  {
    forall k | k in slots ensures SlotOk(slots[k], Moved(threads, t, p), k) {
      ReserversMoved(threads, t, p, k);
      assert SlotOk(slots[k], threads, k);
      if slots[k].active {
        var u :| u in threads && HoldsDevice(threads[u], k);
        assert u in Moved(threads, t, p) && HoldsDevice(Moved(threads, t, p)[u], k);
      }
    }
  }

  /** Somebody begins to wait for a device nobody is destroying. */
  predicate MayStart(threads: Threads, goal: Goal) {
    forall u <- threads ::
      && threads[u] != Destroying(goal.device)
      && (WaitsOn(threads[u], goal.device) ==> !threads[u].goal.ToDestroy? && !goal.ToDestroy?)
  }

  lemma StartOk(slots: Slots, threads: Threads, t: nat, goal: Goal)
    requires GateOk(slots, threads) && t in threads && threads[t].Idle?
    requires goal.device in slots && MayStart(threads, goal)
    ensures GateOk(slots, Moved(threads, t, Waiting(goal, false)))
  {
    hide SlotOk;
    LightSlots(slots, threads, t, Waiting(goal, false));
    AnnouncedMoved(threads, t, Waiting(goal, false));
  }

  lemma AnnouncedMoved(threads: Threads, t: nat, p: Phase)
    requires t in threads
    ensures Announced(threads) && !threads[t].Announcing? ==> Announced(Moved(threads, t, p))
    ensures p.Announcing? ==> Announced(Moved(threads, t, p))
  {
    if u :| u in threads && threads[u].Announcing? && u != t {
      assert u in Moved(threads, t, p) && Moved(threads, t, p)[u].Announcing?;
    }
    assert t in Moved(threads, t, p) && Moved(threads, t, p)[t] == p;
  }

  /** A waiting thread that finds its condition true parks. */
  lemma ParkOk(slots: Slots, threads: Threads, t: nat)
    requires GateOk(slots, threads) && t in threads && threads[t].Waiting?
    requires WaitsFor(slots[threads[t].goal.device], threads[t].goal)
    ensures GateOk(slots, Moved(threads, t, threads[t].(parked := true)))
  {
    hide SlotOk;
    LightSlots(slots, threads, t, threads[t].(parked := true));
    AnnouncedMoved(threads, t, threads[t].(parked := true));
  }

  /** Waking up, with or without a reason, never hurts. */
  lemma WakeOk(slots: Slots, threads: Threads, t: nat)
    requires GateOk(slots, threads) && t in threads && threads[t].Waiting?
    ensures GateOk(slots, Moved(threads, t, threads[t].(parked := false)))
  {
    hide SlotOk;
    LightSlots(slots, threads, t, threads[t].(parked := false));
    AnnouncedMoved(threads, t, threads[t].(parked := false));
  }

  /** The announcement reaches every parked thread. */
  function Notified(threads: Threads, t: nat): Threads {
    map u | u in threads ::
      if u == t then Idle else if threads[u].Waiting? then threads[u].(parked := false) else threads[u]
  }

  lemma NotifyOk(slots: Slots, threads: Threads, t: nat)
    requires GateOk(slots, threads) && t in threads && threads[t].Announcing?
    ensures GateOk(slots, Notified(threads, t))
  {
    hide SlotOk;
    NotifiedSlots(slots, threads, t);
    assert OneHolder(Notified(threads, t)) by { hide AllThreadsOk, Destroyed; }
    hide OneHolder;
  }

  lemma NotifiedSlots(slots: Slots, threads: Threads, t: nat)
    requires AllSlotsOk(slots, threads) && t in threads && threads[t].Announcing?
    ensures AllSlotsOk(slots, Notified(threads, t))
  {
    forall k | k in slots ensures SlotOk(slots[k], Notified(threads, t), k) {
      assert SlotOk(slots[k], threads, k);
      assert Reservers(Notified(threads, t), k) == Reservers(threads, k);
      if slots[k].active {
        var u :| u in threads && HoldsDevice(threads[u], k);
        assert u in Notified(threads, t) && HoldsDevice(Notified(threads, t)[u], k);
      }
    }
  }

  // ------------------------------------------------------------- one slot changes too

  /** Nothing but thread t and slot k changes; no other thread holds k if its number changes. */
  lemma OtherSlots(slots: Slots, threads: Threads, t: nat, p: Phase, k: Handle, s: Slot)
    requires AllSlotsOk(slots, threads) && t in threads && k in slots
    requires forall j | j != k :: !HoldsDevice(threads[t], j) && threads[t] != InLifecycle(j)
    requires forall j | j != k :: !HoldsDevice(p, j) && p != InLifecycle(j)
    requires SlotOk(s, Moved(threads, t, p), k)
    ensures AllSlotsOk(slots[k := s], Moved(threads, t, p))
  {
    forall j | j in slots && j != k ensures SlotOk(slots[j], Moved(threads, t, p), j) {
      ReserversMoved(threads, t, p, j);
      assert SlotOk(slots[j], threads, j);
      if slots[j].active {
        var u :| u in threads && HoldsDevice(threads[u], j);
        assert u in Moved(threads, t, p) && HoldsDevice(Moved(threads, t, p)[u], j);
      }
    }
  }

  /** The slot a finished wait finds is free, so nobody holds or reserves it. */
  lemma FreeSlot(slots: Slots, threads: Threads, k: Handle)
    requires AllThreadsOk(slots, threads) && AllSlotsOk(slots, threads) && k in slots && !slots[k].active
    ensures forall t <- threads :: !HoldsDevice(threads[t], k)
    ensures slots[k].lifecycle == 0 ==> forall t <- threads :: threads[t] != InLifecycle(k)
  {
    assert SlotOk(slots[k], threads, k);
    forall t | t in threads ensures !HoldsDevice(threads[t], k) { assert ThreadOk(slots, threads[t]); }
    if slots[k].lifecycle == 0 {
      assert Reservers(threads, k) == {};
      forall t | t in threads ensures threads[t] != InLifecycle(k) { assert t !in Reservers(threads, k); }
    }
  }

  /** A submission gets through: its device is reserved exactly if its token will release it. */
  lemma AcquireOk(slots: Slots, threads: Threads, t: nat, token: Token, s: Slot)
    requires GateOk(slots, threads) && t in threads && threads[t].Waiting? && threads[t].goal.ToSubmit?
    requires var k := threads[t].goal.device;
             && !WaitsFor(slots[k], threads[t].goal) && token.device == k
             && s.lifecycle == 0 && s.active == Releases(token)
             && (s.active ==> s.number == token.id && s.specialized == token.specialized)
    requires !(token.specialized && token.fallback)
    ensures GateOk(slots[threads[t].goal.device := s], Moved(threads, t, Submitting(token)))
  {
    hide SlotOk;
    var k, p := threads[t].goal.device, Submitting(token);
    FreeSlot(slots, threads, k);
    AcquiredSlot(slots, threads, t, token, s);
    OtherSlots(slots, threads, t, p, k, s);
    AnnouncedMoved(threads, t, p);
    AwakeMoved(slots, threads, t, p, k, s);
  }

  lemma AcquiredSlot(slots: Slots, threads: Threads, t: nat, token: Token, s: Slot)
    requires AllSlotsOk(slots, threads) && t in threads && threads[t].Waiting? && threads[t].goal.device in slots
    requires var k := threads[t].goal.device;
             && slots[k].lifecycle == 0 && token.device == k && s.lifecycle == 0 && s.active == Releases(token)
    ensures SlotOk(s, Moved(threads, t, Submitting(token)), threads[t].goal.device)
  {
    var k, p := threads[t].goal.device, Submitting(token);
    assert SlotOk(slots[k], threads, k);
    ReserversMoved(threads, t, p, k);
    if s.active { assert t in Moved(threads, t, p) && HoldsDevice(Moved(threads, t, p)[t], k); }
  }

  /** If every other parked thread that sleeps now slept before, no wakeup is lost by a busier slot. */
  lemma AwakeMoved(slots: Slots, threads: Threads, t: nat, p: Phase, k: Handle, s: Slot)
    requires NoLostWakeup(slots, threads) && t in threads && !threads[t].Announcing? && k in slots
    requires p.Waiting? ==> !p.parked
    requires (slots[k].active ==> s.active) && (slots[k].lifecycle > 0 ==> s.lifecycle > 0)
    ensures NoLostWakeup(slots[k := s], Moved(threads, t, p))
  {
    AnnouncedMoved(threads, t, p);
    forall u | u in threads && u != t && Asleep(slots[k := s], threads[u]) ensures Announced(threads) {
      assert Asleep(slots, threads[u]);
    }
  }

  /** The After step of the thread that holds a device frees it and owes a notification. */
  lemma ReleaseOk(slots: Slots, threads: Threads, t: nat, s: Slot)
    requires GateOk(slots, threads) && t in threads && threads[t].Submitting? && Releases(threads[t].token)
    requires var k := threads[t].token.device; k in slots && !s.active && s.lifecycle == slots[k].lifecycle
    ensures GateOk(slots[threads[t].token.device := s], Moved(threads, t, Announcing))
  {
    hide SlotOk;
    var k := threads[t].token.device;
    assert HoldsDevice(threads[t], k);
    ReleasedSlot(slots, threads, t, s);
    OtherSlots(slots, threads, t, Announcing, k, s);
    AnnouncedMoved(threads, t, Announcing);
  }

  lemma ReleasedSlot(slots: Slots, threads: Threads, t: nat, s: Slot)
    requires AllSlotsOk(slots, threads) && t in threads && threads[t].Submitting?
    requires var k := threads[t].token.device; k in slots && !s.active && s.lifecycle == slots[k].lifecycle
    ensures SlotOk(s, Moved(threads, t, Announcing), threads[t].token.device)
  {
    var k := threads[t].token.device;
    assert SlotOk(slots[k], threads, k);
    ReserversMoved(threads, t, Announcing, k);
  }

  /** A thread whose token releases nothing simply leaves. */
  lemma LeaveOk(slots: Slots, threads: Threads, t: nat)
    requires GateOk(slots, threads) && t in threads && threads[t].Submitting? && !Releases(threads[t].token)
    ensures GateOk(slots, Moved(threads, t, Idle))
  {
    hide SlotOk;
    LightSlots(slots, threads, t, Idle);
    AnnouncedMoved(threads, t, Idle);
  }

  // ------------------------------------------------------- lifecycle reservations

  lemma ReserveOk(slots: Slots, threads: Threads, t: nat, s: Slot)
    requires GateOk(slots, threads) && t in threads && threads[t].Waiting? && threads[t].goal.ToReserve?
    requires var k := threads[t].goal.device;
             !slots[k].active && !s.active && s.lifecycle == slots[k].lifecycle + 1
    ensures GateOk(slots[threads[t].goal.device := s], Moved(threads, t, InLifecycle(threads[t].goal.device)))
  {
    hide SlotOk;
    var k := threads[t].goal.device;
    var p := InLifecycle(k);
    FreeSlot(slots, threads, k);
    CountedSlot(slots, threads, t, p, k, s);
    OtherSlots(slots, threads, t, p, k, s);
    AwakeMoved(slots, threads, t, p, k, s);
  }

  lemma CountedSlot(slots: Slots, threads: Threads, t: nat, p: Phase, k: Handle, s: Slot)
    requires AllSlotsOk(slots, threads) && t in threads && k in slots && !s.active
    requires s.lifecycle == slots[k].lifecycle - (if threads[t] == InLifecycle(k) then 1 else 0)
                            + (if p == InLifecycle(k) then 1 else 0)
    ensures SlotOk(s, Moved(threads, t, p), k)
  {
    assert SlotOk(slots[k], threads, k);
    ReserversMoved(threads, t, p, k);
  }

  /** A reservation is counted, so the device cannot be active, and its end owes a notification. */
  lemma ReservedSlot(slots: Slots, threads: Threads, t: nat)
    requires AllSlotsOk(slots, threads) && t in threads && threads[t].InLifecycle? && threads[t].device in slots
    ensures slots[threads[t].device].lifecycle > 0 && !slots[threads[t].device].active
  {
    var k := threads[t].device;
    assert SlotOk(slots[k], threads, k);
    assert t in Reservers(threads, k);
  }

  lemma UnreserveOk(slots: Slots, threads: Threads, t: nat, s: Slot)
    requires GateOk(slots, threads) && t in threads && threads[t].InLifecycle?
    requires var k := threads[t].device; k in slots && !s.active && s.lifecycle == slots[k].lifecycle - 1
    ensures GateOk(slots[threads[t].device := s], Moved(threads, t, Announcing))
  {
    hide SlotOk;
    var k := threads[t].device;
    ReservedSlot(slots, threads, t);
    FreeSlot(slots, threads, k);
    CountedSlot(slots, threads, t, Announcing, k, s);
    OtherSlots(slots, threads, t, Announcing, k, s);
    AnnouncedMoved(threads, t, Announcing);
  }

  // -------------------------------------------------------------------- teardown

  /** A teardown goes ahead only with neither a submission nor a reservation, and nobody waiting. */
  lemma TearOk(slots: Slots, threads: Threads, t: nat, s: Slot)
    requires GateOk(slots, threads) && t in threads && threads[t].Waiting? && threads[t].goal.ToDestroy?
    requires var k := threads[t].goal.device;
             !WaitsFor(slots[k], threads[t].goal) && !s.active && s.lifecycle == 0
    ensures GateOk(slots[threads[t].goal.device := s], Moved(threads, t, Destroying(threads[t].goal.device)))
  {
    hide SlotOk;
    var k := threads[t].goal.device;
    FreeSlot(slots, threads, k);
    CountedSlot(slots, threads, t, Destroying(k), k, s);
    OtherSlots(slots, threads, t, Destroying(k), k, s);
    AwakeMoved(slots, threads, t, Destroying(k), k, s);
    NotDestroyed(slots, threads, t);
  }

  lemma NotDestroyed(slots: Slots, threads: Threads, t: nat)
    requires Destroyed(threads) && t in threads && threads[t].Waiting?
    ensures forall u <- threads :: threads[u] != Destroying(threads[t].goal.device)
  {
    forall u | u in threads ensures threads[u] != Destroying(threads[t].goal.device) {
      if u != t { assert WaitsOn(threads[t], threads[t].goal.device); }
    }
  }

  lemma DestroyOk(slots: Slots, threads: Threads, t: nat)
    requires GateOk(slots, threads) && t in threads && threads[t].Destroying?
    ensures GateOk(slots - {threads[t].device}, Moved(threads, t, Idle))
  {
    hide SlotOk;
    var k := threads[t].device;
    LightSlots(slots, threads, t, Idle);
    AnnouncedMoved(threads, t, Idle);
    forall u | u in threads && u != t ensures !Uses(threads[u], k) {}
  }

  /** The slots of other devices may come, all free; those that exist do not change. */
  predicate SteadySlots(slots: Slots, slots': Slots) {
    && (forall k <- slots :: k in slots' && slots'[k].active == slots[k].active &&
          slots'[k].lifecycle == slots[k].lifecycle && (slots'[k].exposed ==> slots[k].exposed) &&
          (slots[k].active ==> slots'[k].number == slots[k].number && slots'[k].specialized == slots[k].specialized))
    && (forall k <- slots' :: k in slots || (!slots'[k].active && slots'[k].lifecycle == 0))
  }

  lemma SteadyOk(slots: Slots, slots': Slots, threads: Threads)
    requires GateOk(slots, threads) && SteadySlots(slots, slots')
    ensures GateOk(slots', threads)
  {
    forall k | k in slots' ensures SlotOk(slots'[k], threads, k) {
      if k in slots {
        assert SlotOk(slots[k], threads, k);
      } else {
        assert Reservers(threads, k) == {} by {
          forall t | t in threads ensures threads[t] != InLifecycle(k) { assert ThreadOk(slots, threads[t]); }
        }
      }
    }
    hide SlotOk;
    forall t | t in threads && Asleep(slots', threads[t]) ensures Asleep(slots, threads[t]) {
      assert ThreadOk(slots, threads[t]);
    }
  }
}
