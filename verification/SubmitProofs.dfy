/** What the critical sections of a submission do to the device they work on, and to nothing else. */
module SubmitProofs {
  import opened GuestTypes
  import opened Wire
  import opened GuestState
  import opened SubmitOps
  import opened Evolution
  import RegistryOps

  /** Only device k changed, and of it neither the descriptor, the objects nor the lifecycle count. */
  predicate Local(w: World, w': World, k: Handle) {
    && k in w.core.devices && k in w'.core.devices
    && w'.core == SetDevice(w.core, k, w'.core.devices[k])
    && TameDevice(w.core.devices[k], w'.core.devices[k])
    && w'.core.devices[k].lifecycle == w.core.devices[k].lifecycle
    && KeepsOrder(w.io, w'.io)
  }

  /** A step taken while nobody holds the device, and after which still nobody does. */
  predicate Open(w: World, w': World, k: Handle) {
    && Local(w, w', k)
    && (Held(w.core.devices[k]) && !w.core.devices[k].active ==>
          Held(w'.core.devices[k]) && !w'.core.devices[k].active)
  }

  /** The answer of a preparation matches what it did to the device. */
  predicate Answered(e: Device, p: Prepared, id: u64) {
    match p
    case PLegacy => !e.active
    case PBlocked => !e.active && e.failed
    case PReady => e.active && e.token == id && Specialized(e)
    case PFallback => e.active && e.token == id && e.stage == Legacy
  }

  /** A preparation of a device nobody holds reserves it exactly when its answer says so. */
  predicate Prepares(w: World, r: (World, Prepared, u64), k: Handle) {
    && Local(w, r.0, k)
    && (Held(w.core.devices[k]) && !w.core.devices[k].active ==>
          Held(r.0.core.devices[k]) && Answered(r.0.core.devices[k], r.1, r.2))
  }

  // --------------------------------------------------------------------- relations

  lemma SetTwice(core: Core, k: Handle, d: Device, e: Device)
    ensures SetDevice(SetDevice(core, k, d), k, e) == SetDevice(core, k, e)
  {
    assert core.devices[k := d][k := e] == core.devices[k := e];
  }

  lemma SetSame(core: Core, k: Handle)
    requires k in core.devices
    ensures SetDevice(core, k, core.devices[k]) == core
  {
    assert core.devices[k := core.devices[k]] == core.devices;
  }

  lemma LocalThen(a: World, b: World, c: World, k: Handle)
    requires Local(a, b, k) && Local(b, c, k)
    ensures Local(a, c, k)
  {
    hide IoOk;
    SetTwice(a.core, k, b.core.devices[k], c.core.devices[k]);
  }

  lemma LocalTame(w: World, w': World, k: Handle)
    requires Local(w, w', k)
    ensures Tame(w, w')
  {
    hide IoOk;
  }

  lemma OpenThen(a: World, b: World, c: World, k: Handle)
    requires Open(a, b, k) && Open(b, c, k)
    ensures Open(a, c, k)
  {
    hide Local, Held;
    LocalThen(a, b, c, k);
  }

  lemma OpenPrepares(a: World, b: World, r: (World, Prepared, u64), k: Handle)
    requires Open(a, b, k) && Prepares(b, r, k)
    ensures Prepares(a, r, k)
  {
    hide Local, Held, Answered;
    LocalThen(a, b, r.0, k);
  }

  /** A change to the device alone, followed by requests that keep the order. */
  lemma OpenSet(w: World, k: Handle, e: Device, io: Io)
    requires k in w.core.devices && KeepsOrder(w.io, io)
    requires TameDevice(w.core.devices[k], e) && e.lifecycle == w.core.devices[k].lifecycle
    requires Held(w.core.devices[k]) && !w.core.devices[k].active ==> Held(e) && !e.active
    ensures Open(w, World(SetDevice(w.core, k, e), io), k)
  {
    hide IoOk;
  }

  lemma OpenIo(w: World, k: Handle, io: Io)
    requires k in w.core.devices && KeepsOrder(w.io, io)
    ensures Open(w, w.(io := io), k)
  {
    hide IoOk;
    SetSame(w.core, k);
  }

  // --------------------------------------------------------------------- fallback

  lemma FallbackOpen(cfg: Config, w: World, k: Handle)
    requires k in w.core.devices
    ensures Open(w, Fallback(cfg, w, k).0, k)
    ensures Fallback(cfg, w, k).0.core.devices[k].exposed ==> w.core.devices[k].exposed
    ensures Fallback(cfg, w, k).1.Some? ==>
              Fallback(cfg, w, k).0.core.devices[k] == DrainedDevice(Numbered(w.core.devices[k])) &&
              Fallback(cfg, w, k).1.value != 0
  {
    hide IoOk, Open, DrainThenFlime;
    var d := w.core.devices[k];
    OpenIo(w, k, w.io);
    if Specialized(d) && !d.active && CanNumber(d) {
      FlimeOrder(cfg, w.io, d.fd, k, FallbackFlush);
      var (io, sent) := DrainThenFlime(cfg.net, w.io, d.fd, k, FallbackFlush);
      OpenIo(w, k, io);
      OpenSet(w, k, DrainedDevice(Numbered(d)), io);
      OpenSet(w, k, Numbered(d), io);
    }
  }

  lemma FailOpen(w: World, k: Handle)
    requires k in w.core.devices
    ensures Open(w, w.(core := FailDevice(w.core, k)), k)
  {
    OpenSet(w, k, w.core.devices[k].(failed := true), w.io);
  }

  lemma FallbackOrFailOpen(cfg: Config, w: World, k: Handle)
    requires k in w.core.devices
    ensures Open(w, FallbackOrFail(cfg, w, k).0, k)
  {
    hide Open, Fallback;
    FallbackOpen(cfg, w, k);
    var (w', id) := Fallback(cfg, w, k);
    FailOpen(w', k);
    OpenThen(w, w', w'.(core := FailDevice(w'.core, k)), k);
  }

  lemma DrainEarlyOpen(cfg: Config, w: World, k: Handle)
    requires k in w.core.devices
    ensures Open(w, DrainEarly(cfg, w, k).0, k)
  {
    hide Open, FallbackOrFail;
    FallbackOrFailOpen(cfg, w, k);
    OpenIo(w, k, w.io);
  }

  /** A drain that succeeds leaves no early route; one that fails leaves the device failed. */
  lemma DrainedEarly(cfg: Config, w: World, k: Handle)
    requires k in w.core.devices
    ensures var (w', ok) := DrainEarly(cfg, w, k);
            if ok then !w'.core.devices[k].early else w'.core.devices[k].failed
  {
    hide DrainThenFlime, Specialized;
  }

  // ------------------------------------------------------------------ preparation

  lemma PrepareFallbackPrepares(cfg: Config, w: World, k: Handle)
    requires k in w.core.devices
    ensures Prepares(w, PrepareFallback(cfg, w, k), k)
  {
    hide IoOk, Open, Fallback;
    FallbackOpen(cfg, w, k);
    var (w', id) := Fallback(cfg, w, k);
    BlockedPrepares(w', k);
    OpenPrepares(w, w', Blocked(w', k), k);
    if id.Some? {
      var e := w'.core.devices[k].(active := true, token := id.value);
      assert Prepares(w', (WithDevice(w', k, e), PFallback, id.value), k);
      OpenPrepares(w, w', (WithDevice(w', k, e), PFallback, id.value), k);
    }
  }

  lemma BlockedPrepares(w: World, k: Handle)
    requires k in w.core.devices
    ensures Prepares(w, Blocked(w, k), k)
  {
    hide IoOk;
  }

  lemma ReservePrepares(w: World, k: Handle, id: u64, recovering: bool)
    requires k in w.core.devices && id != 0 && Specialized(w.core.devices[k]) && !w.core.devices[k].early
    ensures Prepares(w, Reserve(w, k, id, recovering), k)
  {
    hide IoOk;
  }

  lemma CompleteEarlyPrepares(cfg: Config, w: World, k: Handle, view: SubmitView)
    requires k in w.core.devices && Specialized(w.core.devices[k])
    requires w.core.devices[k].early && w.core.devices[k].earlyId != 0
    ensures Prepares(w, CompleteEarly(cfg, w, k, view), k)
  {
    hide IoOk, Open, Prepares, DrainThenFlime, PrepareFallback, Reserve;
    var d := w.core.devices[k];
    PrepareFallbackPrepares(cfg, w, k);
    FlimeOrder(cfg, w.io, d.fd, k, Route);
    var (io, sent) := DrainThenFlime(cfg.net, w.io, d.fd, k, Route);
    OpenIo(w, k, io);
    PrepareFallbackPrepares(cfg, w.(io := io), k);
    OpenPrepares(w, w.(io := io), PrepareFallback(cfg, w.(io := io), k), k);
    var e := d.(early := false, earlyCommand := 0, earlyId := 0);
    var w' := World(SetDevice(w.core, k, e), io);
    OpenSet(w, k, e, io);
    ReservePrepares(w', k, d.earlyId, false);
    OpenPrepares(w, w', Reserve(w', k, d.earlyId, false), k);
  }

  /** However a numbered period ends, the answer matches the reservation. */
  lemma NumberedPrepares(cfg: Config, w: World, k: Handle, io: Io, recovering: bool)
    requires k in w.core.devices && Specialized(w.core.devices[k]) && CanNumber(w.core.devices[k])
    requires !w.core.devices[k].early && KeepsOrder(w.io, io)
    ensures var w' := World(SetDevice(w.core, k, Numbered(w.core.devices[k])), io);
            && Prepares(w, Blocked(w', k), k)
            && Prepares(w, PrepareFallback(cfg, w', k), k)
            && Prepares(w, Reserve(w', k, w.core.devices[k].nextId, recovering), k)
  {
    hide IoOk, Open, Prepares, PrepareFallback, Reserve, Blocked;
    var d := w.core.devices[k];
    var w' := World(SetDevice(w.core, k, Numbered(d)), io);
    OpenSet(w, k, Numbered(d), io);
    BlockedPrepares(w', k);
    OpenPrepares(w, w', Blocked(w', k), k);
    PrepareFallbackPrepares(cfg, w', k);
    OpenPrepares(w, w', PrepareFallback(cfg, w', k), k);
    ReservePrepares(w', k, d.nextId, recovering);
    OpenPrepares(w, w', Reserve(w', k, d.nextId, recovering), k);
  }

  lemma RouteSubmissionPrepares(cfg: Config, w: World, k: Handle, view: SubmitView)
    requires k in w.core.devices && Specialized(w.core.devices[k]) && !w.core.devices[k].early
    ensures Prepares(w, RouteSubmission(cfg, w, k, view), k)
  {
    hide IoOk, KeepsOrder, Prepares, DrainThenFlime, PrepareFallback, Reserve, Blocked, Told;
    var d := w.core.devices[k];
    PrepareFallbackPrepares(cfg, w, k);
    BlockedPrepares(w, k);
    if CanNumber(d) {
      var (begun, sent) := DrainThenFlime(cfg.net, w.io, d.fd, k, PeriodBegin);
      FlimeOrder(cfg, w.io, d.fd, k, PeriodBegin);
      ToldBlocked(w, k, begun, sent, view.withdrawn);
      FlimeOrder(cfg, begun, d.fd, k, Report);
      StillOrder(begun);
      var (told, sent') := if view.mismatch then DrainThenFlime(cfg.net, begun, d.fd, k, Report)
                           else (begun, Acked);
      OrderThen(w.io, begun, told);
      ToldBlocked(w, k, told, sent', view.mismatch && view.disowned);
      var (routed, sent'') := DrainThenFlime(cfg.net, told, d.fd, k, Route);
      FlimeOrder(cfg, told, d.fd, k, Route);
      OrderThen(w.io, told, routed);
      NumberedPrepares(cfg, w, k, routed, view.recovering);
    }
  }

  lemma ObserveDetectPrepares(cfg: Config, w: World, k: Handle, view: SubmitView)
    requires k in w.core.devices && w.core.devices[k].stage == Detect
    ensures Prepares(w, ObserveDetect(cfg, w, k, view), k)
  {
    hide IoOk, KeepsOrder, DrainThenFlime, Held, Observed;
    var d := w.core.devices[k];
    PlainLegacy(w, k);
    FlimeOrder(cfg, w.io, d.fd, k, Interval);
    var (once, first) := DrainThenFlime(cfg.net, w.io, d.fd, k, Interval);
    FlimeOrder(cfg, once, d.fd, k, Interval);
    StillOrder(once);
    var (io, sent) := if first == Acked then DrainThenFlime(cfg.net, once, d.fd, k, Interval) else (once, first);
    OrderThen(w.io, once, io);
    ObservedOpen(d, first, sent, view.withdrawn);
    OpenSet(w, k, Observed(d, first, sent, view.withdrawn), io);
  }

  lemma ObservedOpen(d: Device, first: Outcome, sent: Outcome, withdrawn: bool)
    requires d.stage == Detect
    ensures var e := Observed(d, first, sent, withdrawn);
            && TameDevice(d, e) && e.lifecycle == d.lifecycle
            && (Held(d) && !d.active ==> Held(e) && !e.active)
            && (sent != Acked ==> e.failed)
  {
    hide Held, TameDevice;
    var told := Told(d, first, withdrawn);
    ToldTame(d);
    DetectHeld(d);
    DetectHeld(LegacyDevice(d));
    if sent != Acked {
      assert told == LegacyDevice(d) || told == d;
    } else if !withdrawn {
      assert told == d;
    }
  }

  lemma ToldTame(d: Device)
    ensures TameDevice(d, d) && TameDevice(d, d.(failed := true)) && TameDevice(d, d.(stage := Learn))
    ensures TameDevice(d, LegacyDevice(d)) && TameDevice(d, LegacyDevice(d).(failed := true))
    ensures !LegacyDevice(d).active && LegacyDevice(d).lifecycle == d.lifecycle
  {
  }

  /** What keeps an unreserved device outside Fast in a proper mode. */
  lemma DetectHeld(d: Device)
    requires d.stage == Detect || d.stage == Legacy
    ensures Held(d) ==> Held(d.(failed := true))
    ensures Held(d) && d.stage == Detect && !d.active ==> Held(d.(stage := Learn)) && Held(LegacyDevice(d))
  {
  }

  /** A numbered period whose announcement or report went wrong blocks the submission. */
  lemma ToldBlocked(w: World, k: Handle, io: Io, reached: Outcome, withdrawn: bool)
    requires k in w.core.devices && CanNumber(w.core.devices[k]) && KeepsOrder(w.io, io)
    requires !w.core.devices[k].early
    ensures var w' := World(SetDevice(w.core, k, Told(Numbered(w.core.devices[k]), reached, withdrawn)), io);
            Prepares(w, Blocked(w', k), k)
  {
    hide IoOk, KeepsOrder, Open, Prepares, Blocked;
    var e := Told(Numbered(w.core.devices[k]), reached, withdrawn);
    OpenSet(w, k, e, io);
    BlockedPrepares(World(SetDevice(w.core, k, e), io), k);
    OpenPrepares(w, World(SetDevice(w.core, k, e), io), Blocked(World(SetDevice(w.core, k, e), io), k), k);
  }

  /** The protocol past its first checks, on a device whose control page is known. */
  lemma ProtocolBeforePrepares(cfg: Config, w: World, k: Handle, view: SubmitView)
    requires k in w.core.devices && Held(w.core.devices[k])
    ensures Prepares(w, ProtocolBefore(cfg, w, k, view), k)
  {
    hide IoOk, Prepares, Open, PrepareFallback, Blocked, ObserveDetect, CompleteEarly, RouteSubmission, Flush;
    var (io, flushed) := Flush(cfg.net, w.io);
    FlushOrder(cfg, w.io);
    BlockedPrepares(w, k);
    BlockedPrepares(w.(io := io), k);
    OpenIo(w, k, io);
    OpenPrepares(w, w.(io := io), Blocked(w.(io := io), k), k);
    var d := if view.hostLegacy then LegacyDevice(w.core.devices[k]) else w.core.devices[k];
    var w' := World(SetDevice(w.core, k, d), io);
    OpenSet(w, k, d, io);
    PlainLegacy(w', k);
    OpenPrepares(w, w', (w', PLegacy, 0), k);
    PrepareFallbackPrepares(cfg, w', k);
    OpenPrepares(w, w', PrepareFallback(cfg, w', k), k);
    if d.stage == Detect {
      ObserveDetectPrepares(cfg, w', k, view);
      OpenPrepares(w, w', ObserveDetect(cfg, w', k, view), k);
    } else if Specialized(d) {
      if d.early {
        CompleteEarlyPrepares(cfg, w', k, view);
        OpenPrepares(w, w', CompleteEarly(cfg, w', k, view), k);
      } else {
        RouteSubmissionPrepares(cfg, w', k, view);
        OpenPrepares(w, w', RouteSubmission(cfg, w', k, view), k);
      }
    }
  }

  lemma PlainLegacy(w: World, k: Handle)
    requires k in w.core.devices
    ensures Prepares(w, (w, PLegacy, 0), k)
  {
    OpenIo(w, k, w.io);
  }

  // -------------------------------------------------------------------- the gate

  lemma NegotiateOpen(cfg: Config, w: World, k: Handle, refused: bool)
    requires k in w.core.devices && !w.core.devices[k].negotiated
    ensures Open(w, RegistryOps.Negotiate(cfg, w, k, refused).0, k)
    ensures !RegistryOps.Negotiate(cfg, w, k, refused).1 ==>
              var e := RegistryOps.Negotiate(cfg, w, k, refused).0.core.devices[k]; e.failed || e.stage == Legacy
  {
    hide IoOk, Open, Held, DrainThenFlime, RegistryOps.Negotiated;
    var d := w.core.devices[k];
    FlimeOrder(cfg, w.io, d.fd, k, Capabilities);
    var (io, sent) := DrainThenFlime(cfg.net, w.io, d.fd, k, Capabilities);
    NegotiatedOpen(d, sent, refused);
    OpenSet(w, k, RegistryOps.Negotiated(d, sent, refused), io);
  }

  lemma NegotiatedOpen(d: Device, sent: Outcome, refused: bool)
    requires !d.negotiated
    ensures var e := RegistryOps.Negotiated(d, sent, refused);
            && TameDevice(d, e) && e.lifecycle == d.lifecycle
            && (Held(d) && !d.active ==> Held(e) && !e.active)
            && ((sent == Acked && !refused) || e.failed || e.stage == Legacy)
  {
  }

  lemma EnsureNegotiatedOpen(cfg: Config, w: World, k: Handle, refused: bool)
    requires k in w.core.devices
    ensures Open(w, EnsureNegotiated(cfg, w, k, refused).0, k)
    ensures !EnsureNegotiated(cfg, w, k, refused).1 ==>
              var e := EnsureNegotiated(cfg, w, k, refused).0.core.devices[k]; e.failed || e.stage == Legacy
  {
    hide Open, RegistryOps.Negotiate;
    OpenIo(w, k, w.io);
    if !w.core.devices[k].negotiated { NegotiateOpen(cfg, w, k, refused); }
  }

  lemma AdoptQueueOpen(cfg: Config, w: World, k: Handle, queue: Handle)
    requires k in w.core.devices
    ensures Open(w, AdoptQueue(cfg, w, k, queue).0, k)
    ensures !AdoptQueue(cfg, w, k, queue).1 ==> AdoptQueue(cfg, w, k, queue).0.core.devices[k].failed
  {
    hide Open, DrainEarly;
    DrainedEarly(cfg, w, k);
    DrainEarlyOpen(cfg, w, k);
    OpenIo(w, k, w.io);
    var d := w.core.devices[k];
    var (w', ok) := if d.queue == 0 then (w, true) else DrainEarly(cfg, w, k);
    if ok {
      OpenSet(w', k, w'.core.devices[k].(queue := queue), w'.io);
      OpenThen(w, w', WithDevice(w', k, w'.core.devices[k].(queue := queue)), k);
    }
  }

  lemma ClassifyPrepares(cfg: Config, w: World, k: Handle, view: SubmitView)
    requires k in w.core.devices && Held(w.core.devices[k])
    ensures Prepares(w, Classify(cfg, w, k, view), k)
  {
    hide Prepares, ProtocolBefore, PrepareFallback, Blocked;
    ProtocolBeforePrepares(cfg, w, k, view);
    PlainLegacy(w, k);
    PrepareFallbackPrepares(cfg, w, k);
    BlockedPrepares(w, k);
  }

  /** A token speaks for the device exactly as long as the device is reserved under its number. */
  predicate Holds(token: Token, d: Device) {
    if Releases(token) then d.active && d.token == token.id && token.id != 0 else !d.active
  }

  /** The gate's answer: at most one kind of token, given out only with the device in that mode. */
  predicate GateFits(gate: Gate, token: Token, d: Device) {
    && (token.specialized ==> gate == ReadyGate && !token.fallback && Specialized(d))
    && (token.fallback ==> gate == LegacyGate && !token.specialized && d.stage == Legacy)
    && (gate == ReadyGate ==> token.specialized)
    && (gate == BlockedGate ==> d.failed && !d.active)
  }

  /** A submission that got past its wait reserves its device exactly when its token releases it. */
  lemma BeforeSubmitReserves(cfg: Config, w: World, queue: Handle, view: SubmitView, k: Handle)
    requires Owner(w.core.queueDevices, w.core.devices, queue) == Some(k)
    requires Held(w.core.devices[k]) && !w.core.devices[k].active
    ensures var (w', gate, token) := BeforeSubmit(cfg, w, queue, view);
            && Local(w, w', k)
            && token.device == k && token.valid
            && Held(w'.core.devices[k])
            && Holds(token, w'.core.devices[k])
            && GateFits(gate, token, w'.core.devices[k])
  {
    hide IoOk, Local, Held, AdoptQueue, EnsureNegotiated, Classify, Specialized;
    AdoptQueueOpen(cfg, w, k, queue);
    var (adopted, ok) := AdoptQueue(cfg, w, k, queue);
    if ok {
      InDevices(w, adopted, k);
      EnsureNegotiatedOpen(cfg, adopted, k, view.refused);
      var (ready, negotiated) := EnsureNegotiated(cfg, adopted, k, view.refused);
      OpenThen(w, adopted, ready, k);
      if negotiated {
        ClassifyPrepares(cfg, ready, k, view);
        OpenPrepares(w, ready, Classify(cfg, ready, k, view), k);
        TokenNotZero(Classify(cfg, ready, k, view).0.core.devices[k]);
      }
    }
  }

  lemma TokenNotZero(d: Device)
    requires Held(d)
    ensures d.active ==> d.token != 0
  {
  }

  lemma InDevices(w: World, w': World, k: Handle)
    requires Local(w, w', k)
    ensures k in w'.core.devices
  {
  }

  // ------------------------------------------------------------------ completion

  lemma FailActiveOpen(w: World, k: Handle)
    requires k in w.core.devices
    ensures Local(w, FailActive(w, k), k)
    ensures var e := FailActive(w, k).core.devices[k]; !e.active && e.failed && e.exposed == w.core.devices[k].exposed
    ensures Held(w.core.devices[k]) ==> Held(FailActive(w, k).core.devices[k])
  {
    hide IoOk;
  }

  /** Local, and afterwards nobody holds the device. */
  predicate Frees(w: World, w': World, k: Handle) {
    && Local(w, w', k)
    && !w'.core.devices[k].active
    && (w'.core.devices[k].exposed ==> w.core.devices[k].exposed)
    && (Held(w.core.devices[k]) ==> Held(w'.core.devices[k]))
  }

  lemma LocalFrees(a: World, b: World, c: World, k: Handle)
    requires Local(a, b, k) && Frees(b, c, k)
    requires b.core.devices[k].exposed ==> a.core.devices[k].exposed
    requires Held(a.core.devices[k]) ==> Held(b.core.devices[k])
    ensures Frees(a, c, k)
  {
    hide IoOk, Local, Held;
    LocalThen(a, b, c, k);
  }

  lemma SetFrees(w: World, k: Handle, e: Device, io: Io)
    requires k in w.core.devices && KeepsOrder(w.io, io)
    requires TameDevice(w.core.devices[k], e) && e.lifecycle == w.core.devices[k].lifecycle && !e.active
    requires e.exposed ==> w.core.devices[k].exposed
    requires Held(w.core.devices[k]) ==> Held(e)
    ensures Frees(w, World(SetDevice(w.core, k, e), io), k)
  {
    hide IoOk;
  }

  lemma AbandonFrees(cfg: Config, w: World, k: Handle)
    requires k in w.core.devices
    ensures Frees(w, AbandonRecovery(cfg, w, k), k)
  {
    hide IoOk, Local, Fallback;
    var lowered := WithDevice(w, k, w.core.devices[k].(active := false));
    SetFrees(w, k, w.core.devices[k].(active := false), w.io);
    FallbackOpen(cfg, lowered, k);
    var (w', id) := Fallback(cfg, lowered, k);
    LocalThen(w, lowered, w', k);
    FailActiveOpen(w', k);
    LocalThen(w, w', FailActive(w', k), k);
    if id.Some? { assert !w'.core.devices[k].active; }
  }

  /** Whatever the completion of a specialized submission finds, the device is free afterwards. */
  lemma ProtocolAfterFrees(cfg: Config, w: World, k: Handle, id: u64, ok: bool, view: AfterView)
    requires k in w.core.devices
    ensures Frees(w, ProtocolAfter(cfg, w, k, id, ok, view), k)
  {
    hide IoOk, KeepsOrder, Local, Held, AbandonRecovery, DrainThenFlime, FailActive;
    var d := w.core.devices[k];
    FailActiveOpen(w, k);
    AbandonFrees(cfg, w, k);
    FlimeOrder(cfg, w.io, d.fd, k, Report);
    var (io, sent) := DrainThenFlime(cfg.net, w.io, d.fd, k, Report);
    FlimeOrder(cfg, io, d.fd, k, Report);
    var (io', sent') := DrainThenFlime(cfg.net, io, d.fd, k, Report);
    OrderThen(w.io, io, io');
    if d.active {
      ReportedFrees(cfg, w, io, k, view);
      ReportedFrees(cfg, w, io', k, view);
      WithdrawnFrees(w, io, k);
      WithdrawnFrees(w, io', k);
    }
  }

  /** The outcomes of a completion once its reports are on the wire. */
  lemma ReportedFrees(cfg: Config, w: World, io: Io, k: Handle, view: AfterView)
    requires k in w.core.devices && KeepsOrder(w.io, io) && w.core.devices[k].active
    ensures Frees(w, AbandonRecovery(cfg, w.(io := io), k), k)
    ensures Frees(w, FailActive(w.(io := io), k), k)
    ensures var d, reported := w.core.devices[k], w.(io := io);
            && Frees(w, WithDevice(reported, k, Inactive(d).(
                 stage := Detect, early := false, earlyCommand := 0, earlyId := 0)), k)
            && Frees(w, WithDevice(reported, k, Inactive(d).(
                 stage := view.next, failed := d.failed || !view.retired)), k)
  {
    hide IoOk, Local, AbandonRecovery;
    var d := w.core.devices[k];
    OpenIo(w, k, io);
    AbandonFrees(cfg, w.(io := io), k);
    LocalFrees(w, w.(io := io), AbandonRecovery(cfg, w.(io := io), k), k);
    FailActiveOpen(w.(io := io), k);
    LocalFrees(w, w.(io := io), FailActive(w.(io := io), k), k);
    SetFrees(w, k, Inactive(d).(stage := Detect, early := false, earlyCommand := 0, earlyId := 0), io);
    SetFrees(w, k, Inactive(d).(stage := view.next, failed := d.failed || !view.retired), io);
  }

  /** A report answered by a withdrawal leaves the device in Legacy and failed. */
  lemma WithdrawnFrees(w: World, io: Io, k: Handle)
    requires k in w.core.devices && KeepsOrder(w.io, io)
    ensures Frees(w, FailActive(WithDevice(w.(io := io), k, LegacyDevice(w.core.devices[k])), k), k)
  {
    hide IoOk, KeepsOrder, Local, Held, FailActive, Frees;
    var d := w.core.devices[k];
    var withdrawn := WithDevice(w.(io := io), k, LegacyDevice(d));
    LegacyFrees(w, k, io);
    FailActiveFrees(withdrawn, k);
    FreesThen(w, withdrawn, FailActive(withdrawn, k), k);
  }

  lemma LegacyFrees(w: World, k: Handle, io: Io)
    requires k in w.core.devices && KeepsOrder(w.io, io)
    ensures Frees(w, World(SetDevice(w.core, k, LegacyDevice(w.core.devices[k])), io), k)
  {
    hide KeepsOrder;
    SetFrees(w, k, LegacyDevice(w.core.devices[k]), io);
  }

  lemma FailActiveFrees(w: World, k: Handle)
    requires k in w.core.devices
    ensures Frees(w, FailActive(w, k), k)
  {
    hide Local, Held;
    FailActiveOpen(w, k);
  }

  lemma FreesThen(a: World, b: World, c: World, k: Handle)
    requires Frees(a, b, k) && Frees(b, c, k)
    ensures Frees(a, c, k)
  {
    hide Local, Held;
    LocalFrees(a, b, c, k);
  }

  /** The submission a token speaks for is released by that token's After step. */
  lemma AfterSubmitFrees(cfg: Config, w: World, token: Token, ok: bool, view: AfterView)
    requires Releases(token) && token.device in w.core.devices && Holds(token, w.core.devices[token.device])
    ensures Frees(w, AfterSubmit(cfg, w, token, ok, view), token.device)
  {
    hide IoOk, Local, ProtocolAfter;
    var k, d := token.device, w.core.devices[token.device];
    ProtocolAfterFrees(cfg, w, k, token.id, ok, view);
    SetFrees(w, k, Inactive(d).(failed := d.failed || !ok), w.io);
  }

  /**
   * An After step whose token does not speak for the submission in progress leaves that submission
   * alone if and only if the token is not a specialized one: a stale specialized token fails the
   * device and clears whatever submission is active on it.
   */
  lemma StaleTokenExactly(cfg: Config, w: World, token: Token, ok: bool, view: AfterView)
    requires token.device in w.core.devices
    requires var d := w.core.devices[token.device]; d.active && d.token != token.id
    ensures var d, e := w.core.devices[token.device], AfterSubmit(cfg, w, token, ok, view).core.devices[token.device];
            (e.active && e.token == d.token) <==> !(token.valid && token.specialized && !token.fallback)
  {
    hide AbandonRecovery;
  }
}
