/**
 * Exactly which submissions are routed, drained, passed on or blocked, and exactly what state a
 * completed one leaves behind, in terms of the device before the call, what the call is told, and
 * the network's answers to its requests.
 */
module SubmitExactly {
  import opened GuestTypes
  import opened ClusterCodec
  import opened ClusterProofs
  import opened Wire
  import opened GuestState
  import opened RegistryOps
  import opened SubmitOps
  import opened Fates

  // ------------------------------------------------------------------ what goes through

  /** The requests of a whole submission, the first of them numbered r, announce it to the host. */
  predicate Announced(net: Net, r: nat, d: Device, view: SubmitView) {
    && HasNumber(d.nextId) && view.planned && (view.recovering ==> view.checkpoint)
    && net(r) == Acked && !view.withdrawn
    && (view.mismatch ==> net(r + 1) == Acked && !view.disowned)
  }

  /** The number of the request that carries the records. */
  function RouteAt(r: nat, view: SubmitView): nat { r + if view.mismatch then 2 else 1 }

  predicate TakenWhole(net: Net, r: nat, d: Device, view: SubmitView) {
    && Announced(net, r, d, view)
    && net(RouteAt(r, view)) == Acked && view.verdict == Accepted
    && (view.recovering ==> view.verified)
  }

  /** The last chunk of a submission sent ahead is taken. */
  predicate TakenLast(net: Net, r: nat, view: SubmitView) {
    view.exact && net(r) == Acked && view.verdict == Accepted
  }

  /** A submission that can be routed at all: described, read, wanted, complete, with only classified work. */
  predicate Routable(view: SubmitView) {
    && view.built && view.refreshed && !view.hostLegacy && view.assembled
    && view.dispatches && !view.hasOpaque
  }

  /** No route sent ahead on another queue is in the way. */
  predicate Unhindered(d: Device, queue: Handle) { !d.early || d.queue == queue || d.queue == 0 }

  /** Exactly when a submission is routed. */
  predicate Ready(net: Net, io: Io, d: Device, queue: Handle, view: SubmitView) {
    && !d.failed && Suppressing(d) && Unhindered(d, queue)
    && Routable(view) && Clears(net, io)
    && (if d.early then TakenLast(net, Upcoming(io), view) else TakenWhole(net, Upcoming(io), d, view))
  }

  /** A whole submission that ends in a drain, its first request numbered r. */
  predicate DrainedWhole(net: Net, r: nat, d: Device, view: SubmitView) {
    if view.recovering && !view.checkpoint then HasNumber(d.nextId) && net(r) == Acked
    else
      && Announced(net, r, d, view) && !TakenWhole(net, r, d, view)
      && (view.recovering || (net(RouteAt(r, view)) == Acked && view.verdict == NeedsRecovery))
      && HasNumber(d.nextId + 1) && net(RouteAt(r, view) + 1) == Acked
  }

  /** Exactly when a submission drains its device to Legacy and goes out under the drain's number. */
  predicate Drained(net: Net, io: Io, d: Device, queue: Handle, view: SubmitView) {
    var r := Upcoming(io);
    && !d.failed && Suppressing(d) && Unhindered(d, queue) && Clears(net, io)
    && (if !view.built then HasNumber(d.nextId) && net(r) == Acked
        else
          && view.refreshed && !view.hostLegacy
          && (if !view.assembled || !view.dispatches || view.hasOpaque then HasNumber(d.nextId) && net(r) == Acked
              else if d.early then
                !TakenLast(net, r, view) && HasNumber(d.nextId) && net(if view.exact then r + 1 else r) == Acked
              else DrainedWhole(net, r, d, view)))
  }

  /** A submission on a device in Detect passes, its first request numbered r. */
  predicate Watched(net: Net, r: nat, view: SubmitView) {
    || view.hostLegacy || !view.assembled || !view.dispatches || !view.promoted
    || (net(r) == Acked && net(r + 1) == Acked)
  }

  /** Exactly when a submission goes out as it is, with no reservation. */
  predicate Passed(net: Net, io: Io, d: Device, queue: Handle, view: SubmitView) {
    var r := Upcoming(io);
    if !Unhindered(d, queue) then Drainable(d) && Clears(net, io) && net(r) == Acked
    else if d.failed || (!d.negotiated && d.stage == Legacy) then d.stage == Legacy
    else if !d.negotiated then
      && Clears(net, io) && net(r) == Acked
      && (view.refused || !view.built || (view.refreshed && Watched(net, r + 1, view)))
    else if !view.built then d.stage == Detect
    else
      && Clears(net, io) && view.refreshed
      && (view.hostLegacy || d.stage == Legacy || (d.stage == Detect && Watched(net, r, view)))
  }

  // ------------------------------------------------------------------ the pieces

  lemma PrepareFallbackExactly(cfg: Config, w: World, k: Handle)
    requires k in w.core.devices && ClusterOk(w.io.cluster)
    ensures var (w', prepared, id) := PrepareFallback(cfg, w, k);
            if Drainable(w.core.devices[k]) && Clears(cfg.net, w.io) && cfg.net(Upcoming(w.io)) == Acked
            then prepared == PFallback else prepared == PBlocked
  {
    hide Fallback, ClusterOk, Clears, Drainable, AfterDrain;
    FallbackExactly(cfg, w, k);
  }

  lemma CompleteEarlyExactly(cfg: Config, w: World, k: Handle, view: SubmitView)
    requires k in w.core.devices && w.io.cluster == EMPTY_CLUSTER && !view.hasOpaque
    ensures var (w', prepared, id) := CompleteEarly(cfg, w, k, view);
            var d, r := w.core.devices[k], w.io.rpcs;
            if TakenLast(cfg.net, r, view)
            then
              && prepared == PReady && id == d.earlyId
              && w'.core == SetDevice(w.core, k, d.(early := false, earlyCommand := 0, earlyId := 0,
                                                    active := true, token := d.earlyId, recovering := false))
              && w'.io.log == w.io.log + [Controlled(d.fd, k, Route)]
            else if Drainable(d) && cfg.net(if view.exact then r + 1 else r) == Acked
            then prepared == PFallback else prepared == PBlocked
  {
    hide PrepareFallback, DrainThenFlime, ClusterOk, Clears, Drainable;
    var d := w.core.devices[k];
    EmptyClears(cfg.net, w.io);
    FlimeFate(cfg.net, w.io, d.fd, k, Route);
    PrepareFallbackExactly(cfg, w, k);
    var io := DrainThenFlime(cfg.net, w.io, d.fd, k, Route).0;
    EmptyClears(cfg.net, io);
    PrepareFallbackExactly(cfg, w.(io := io), k);
    SetOver(w.core, k, d.(early := false, earlyCommand := 0, earlyId := 0));
  }

  lemma SetOver(core: Core, k: Handle, e: Device)
    ensures forall x: Device :: SetDevice(SetDevice(core, k, e), k, x) == SetDevice(core, k, x)
  {
    forall x: Device ensures SetDevice(SetDevice(core, k, e), k, x) == SetDevice(core, k, x) {
      assert core.devices[k := e][k := x] == core.devices[k := x];
    }
  }

  /** The announcement and the report that may follow it. */
  function Announcements(d: Device, k: Handle, view: SubmitView): seq<Entry> {
    [Controlled(d.fd, k, PeriodBegin)] + if view.mismatch then [Controlled(d.fd, k, Report)] else []
  }

  /** The requests before the route; told is where they leave the transport if all went well. */
  lemma AnnouncedExactly(cfg: Config, io: Io, d: Device, k: Handle, view: SubmitView)
    requires io.cluster == EMPTY_CLUSTER && HasNumber(d.nextId) && view.planned
    requires view.recovering ==> view.checkpoint
    ensures var (begun, sent) := DrainThenFlime(cfg.net, io, d.fd, k, PeriodBegin);
            var (told, sent') := if view.mismatch then DrainThenFlime(cfg.net, begun, d.fd, k, Report) else (begun, Acked);
            var all := sent == Acked && !view.withdrawn && sent' == Acked && !(view.mismatch && view.disowned);
            && (all <==> Announced(cfg.net, io.rpcs, d, view))
            && (Announced(cfg.net, io.rpcs, d, view) ==>
                  && told.cluster == EMPTY_CLUSTER && told.rpcs == RouteAt(io.rpcs, view)
                  && told.log == io.log + Announcements(d, k, view))
  {
    hide DrainThenFlime, ClusterOk, Clears;
    EmptyClears(cfg.net, io);
    FlimeFate(cfg.net, io, d.fd, k, PeriodBegin);
    var begun := DrainThenFlime(cfg.net, io, d.fd, k, PeriodBegin).0;
    EmptyClears(cfg.net, begun);
    FlimeFate(cfg.net, begun, d.fd, k, Report);
  }

  /** The device reserved for a submission routed whole. */
  function ReservedWhole(d: Device, view: SubmitView): Device
    requires HasNumber(d.nextId)
  {
    d.(nextId := d.nextId + 1, active := true, token := d.nextId, recovering := view.recovering)
  }

  /** A submission whose recovery checkpoint could not be prepared, or that has no number or plan. */
  lemma UnroutedExactly(cfg: Config, w: World, k: Handle, view: SubmitView)
    requires k in w.core.devices && w.io.cluster == EMPTY_CLUSTER
    requires !HasNumber(w.core.devices[k].nextId) || !view.planned || (view.recovering && !view.checkpoint)
    ensures var prepared := RouteSubmission(cfg, w, k, view).1;
            var d, r := w.core.devices[k], w.io.rpcs;
            && !Announced(cfg.net, r, d, view)
            && prepared == if view.recovering && !view.checkpoint && Drainable(d) && cfg.net(r) == Acked
                           then PFallback else PBlocked
  {
    hide PrepareFallback, DrainThenFlime, ClusterOk, Clears, Suppressing;
    EmptyClears(cfg.net, w.io);
    PrepareFallbackExactly(cfg, w, k);
  }

  lemma RouteSubmissionExactly(cfg: Config, w: World, k: Handle, view: SubmitView)
    requires k in w.core.devices && w.io.cluster == EMPTY_CLUSTER
    requires Suppressing(w.core.devices[k]) && !w.core.devices[k].active
    ensures var (w', prepared, id) := RouteSubmission(cfg, w, k, view);
            var d, r := w.core.devices[k], w.io.rpcs;
            && (TakenWhole(cfg.net, r, d, view) ==>
                  && prepared == PReady && id == d.nextId
                  && w'.core == SetDevice(w.core, k, ReservedWhole(d, view))
                  && w'.io.log == w.io.log + (Announcements(d, k, view) + [Controlled(d.fd, k, Route)]))
            && (!TakenWhole(cfg.net, r, d, view) ==>
                  prepared == if DrainedWhole(cfg.net, r, d, view) then PFallback else PBlocked)
  {
    hide PrepareFallback, DrainThenFlime, ClusterOk, Clears, LegacyDevice;
    var d := w.core.devices[k];
    if !HasNumber(d.nextId) || !view.planned || (view.recovering && !view.checkpoint) {
      UnroutedExactly(cfg, w, k, view);
    } else {
      AnnouncedExactly(cfg, w.io, d, k, view);
      if Announced(cfg.net, w.io.rpcs, d, view) { RoutedExactly(cfg, w, k, view); }
    }
  }

  /** Past the announcement: the route request and what its answer leads to. */
  lemma RoutedExactly(cfg: Config, w: World, k: Handle, view: SubmitView)
    requires k in w.core.devices && w.io.cluster == EMPTY_CLUSTER
    requires Suppressing(w.core.devices[k]) && !w.core.devices[k].active
    requires Announced(cfg.net, w.io.rpcs, w.core.devices[k], view)
    ensures var (w', prepared, id) := RouteSubmission(cfg, w, k, view);
            var d, r := w.core.devices[k], w.io.rpcs;
            && (TakenWhole(cfg.net, r, d, view) ==>
                  && prepared == PReady && id == d.nextId
                  && w'.core == SetDevice(w.core, k, ReservedWhole(d, view))
                  && w'.io.log == w.io.log + (Announcements(d, k, view) + [Controlled(d.fd, k, Route)]))
            && (!TakenWhole(cfg.net, r, d, view) ==>
                  prepared == if DrainedWhole(cfg.net, r, d, view) then PFallback else PBlocked)
  {
    hide PrepareFallback, DrainThenFlime, Clears, LegacyDevice, Suppressing, Announcements, Concluded, RouteSubmission,
         Drainable, SetDevice, Announced, RouteAt, ReservedWhole, Numbered, HasNumber;
    var d := w.core.devices[k];
    AnnouncedHas(cfg.net, w.io.rpcs, d, view);
    AnnouncedExactly(cfg, w.io, d, k, view);
    var begun := DrainThenFlime(cfg.net, w.io, d.fd, k, PeriodBegin).0;
    var told := if view.mismatch then DrainThenFlime(cfg.net, begun, d.fd, k, Report).0 else begun;
    RoutedAsConcluded(cfg, w, k, view, told);
    NumberedDrains(d);
    NumberedAt(w.core, k);
    NumberedReserves(w.core, k, view);
    ConcludedExactly(cfg, World(SetDevice(w.core, k, Numbered(d)), told), k, view, d.nextId);
    assert (w.io.log + Announcements(d, k, view)) + [Controlled(d.fd, k, Route)]
        == w.io.log + (Announcements(d, k, view) + [Controlled(d.fd, k, Route)]);
  }

  /** The route request of a numbered and announced submission, and what its answer leads to. */
  function Concluded(cfg: Config, w: World, k: Handle, view: SubmitView, id: u64): (World, Prepared, u64)
    requires k in w.core.devices
  {
    var (routed, sent) := DrainThenFlime(cfg.net, w.io, w.core.devices[k].fd, k, Route);
    var w' := w.(io := routed);
    var verdict := if sent == Acked then view.verdict else Rejected;
    if verdict == NeedsRecovery && !view.recovering then PrepareFallback(cfg, w', k)
    else if verdict != Accepted then if view.recovering then PrepareFallback(cfg, w', k) else Blocked(w', k)
    else if view.recovering && !view.verified then PrepareFallback(cfg, w', k)
    else Reserve(w', k, id, view.recovering)
  }

  lemma NumberedAt(core: Core, k: Handle)
    requires k in core.devices && HasNumber(core.devices[k].nextId)
    ensures CanNumber(core.devices[k])
    ensures var numbered := SetDevice(core, k, Numbered(core.devices[k]));
            k in numbered.devices && numbered.devices[k].fd == core.devices[k].fd
  {
  }

  lemma RoutedAsConcluded(cfg: Config, w: World, k: Handle, view: SubmitView, told: Io)
    requires k in w.core.devices && w.io.cluster == EMPTY_CLUSTER
    requires Announced(cfg.net, w.io.rpcs, w.core.devices[k], view)
    requires var begun := DrainThenFlime(cfg.net, w.io, w.core.devices[k].fd, k, PeriodBegin).0;
             told == if view.mismatch then DrainThenFlime(cfg.net, begun, w.core.devices[k].fd, k, Report).0 else begun
    ensures var d := w.core.devices[k];
            RouteSubmission(cfg, w, k, view)
            == Concluded(cfg, World(SetDevice(w.core, k, Numbered(d)), told), k, view, d.nextId)
  {
    hide PrepareFallback, DrainThenFlime, SetDevice, Told, Numbered, Blocked, Reserve, Announcements, RouteAt;
    AnnouncedExactly(cfg, w.io, w.core.devices[k], k, view);
    NumberedAt(w.core, k);
  }

  lemma ConcludedExactly(cfg: Config, w: World, k: Handle, view: SubmitView, id: u64)
    requires k in w.core.devices && w.io.cluster == EMPTY_CLUSTER
    ensures var (w', prepared, token) := Concluded(cfg, w, k, view, id);
            var d, r := w.core.devices[k], w.io.rpcs;
            var taken := cfg.net(r) == Acked && view.verdict == Accepted && (view.recovering ==> view.verified);
            var retreats := view.recovering || (cfg.net(r) == Acked && view.verdict == NeedsRecovery);
            && (taken ==>
                  && prepared == PReady && token == id
                  && w'.core == SetDevice(w.core, k, d.(active := true, token := id, recovering := view.recovering))
                  && w'.io.log == w.io.log + [Controlled(d.fd, k, Route)])
            && (!taken ==>
                  prepared == if retreats && Drainable(d) && cfg.net(r + 1) == Acked then PFallback else PBlocked)
  {
    hide PrepareFallback, DrainThenFlime, ClusterOk, Clears, Drainable;
    var d := w.core.devices[k];
    EmptyClears(cfg.net, w.io);
    FlimeFate(cfg.net, w.io, d.fd, k, Route);
    var routed := DrainThenFlime(cfg.net, w.io, d.fd, k, Route).0;
    EmptyClears(cfg.net, routed);
    PrepareFallbackExactly(cfg, w.(io := routed), k);
  }

  lemma AnnouncedHas(net: Net, r: nat, d: Device, view: SubmitView)
    requires Announced(net, r, d, view)
    ensures HasNumber(d.nextId) && CanNumber(d) && view.planned && (view.recovering ==> view.checkpoint)
  {
  }

  lemma NumberedReserves(core: Core, k: Handle, view: SubmitView)
    requires k in core.devices && HasNumber(core.devices[k].nextId)
    ensures var d, numbered := core.devices[k], SetDevice(core, k, Numbered(core.devices[k]));
            && k in numbered.devices && numbered.devices[k] == Numbered(d)
            && SetDevice(numbered, k, Numbered(d).(active := true, token := d.nextId, recovering := view.recovering))
               == SetDevice(core, k, ReservedWhole(d, view))
  {
    SetOver(core, k, Numbered(core.devices[k]));
  }

  lemma NumberedDrains(d: Device)
    requires HasNumber(d.nextId) && Suppressing(d) && !d.active
    ensures Drainable(Numbered(d)) <==> HasNumber(d.nextId + 1)
  {
  }

  lemma ObserveExactly(cfg: Config, w: World, k: Handle, view: SubmitView)
    requires k in w.core.devices && w.io.cluster == EMPTY_CLUSTER
    requires !view.hostLegacy && view.assembled
    ensures ObserveDetect(cfg, w, k, view).1
         == if Watched(cfg.net, w.io.rpcs, view) then PLegacy else PBlocked
  {
    hide DrainThenFlime, ClusterOk, Clears, SubmitOps.Observed;
    var fd := w.core.devices[k].fd;
    EmptyClears(cfg.net, w.io);
    FlimeFate(cfg.net, w.io, fd, k, Interval);
    var once := DrainThenFlime(cfg.net, w.io, fd, k, Interval).0;
    EmptyClears(cfg.net, once);
    FlimeFate(cfg.net, once, fd, k, Interval);
  }

  /** A device that has seen enough starts learning exactly if both announcements are acknowledged. */
  lemma PromotedExactly(cfg: Config, w: World, k: Handle, view: SubmitView)
    requires k in w.core.devices && w.io.cluster == EMPTY_CLUSTER
    ensures var d, r := w.core.devices[k], w.io.rpcs;
            var w' := ObserveDetect(cfg, w, k, view).0;
            var e := w'.core.devices[k];
            var acked := cfg.net(r) == Acked && cfg.net(r + 1) == Acked;
            if !view.dispatches || !view.promoted then w' == w
            else
              && e.stage == (if cfg.net(r) != Refused && view.withdrawn then Legacy
                             else if acked && !view.withdrawn then Learn else d.stage)
              && e.failed == (d.failed || !acked)
              && w'.core == SetDevice(w.core, k, e)
              && (acked ==> w'.io.log == w.io.log + [Controlled(d.fd, k, Interval), Controlled(d.fd, k, Interval)])
  {
    hide DrainThenFlime, ClusterOk, Clears;
    var fd := w.core.devices[k].fd;
    EmptyClears(cfg.net, w.io);
    FlimeFate(cfg.net, w.io, fd, k, Interval);
    var once := DrainThenFlime(cfg.net, w.io, fd, k, Interval).0;
    EmptyClears(cfg.net, once);
    FlimeFate(cfg.net, once, fd, k, Interval);
  }

  /** The device after a routed submission whose announcement or report went wrong. */
  function Unannounced(d: Device, left: bool): Device
    requires HasNumber(d.nextId)
  {
    var numbered := d.(nextId := d.nextId + 1, failed := true);
    if left then numbered.(stage := Legacy, negotiated := false, active := false, token := 0, recovering := false,
                           early := false, earlyCommand := 0, earlyId := 0)
    else numbered
  }

  /** It has used its number and failed, in Legacy exactly if a request that may have reached the host said so. */
  lemma UnannouncedExactly(cfg: Config, w: World, k: Handle, view: SubmitView)
    requires k in w.core.devices && w.io.cluster == EMPTY_CLUSTER && HasNumber(w.core.devices[k].nextId) && view.planned
    requires (view.recovering ==> view.checkpoint) && !Announced(cfg.net, w.io.rpcs, w.core.devices[k], view)
    ensures var d, r := w.core.devices[k], w.io.rpcs;
            var begun := cfg.net(r) == Acked && !view.withdrawn;
            var left := if begun then cfg.net(r + 1) != Refused && view.disowned
                        else cfg.net(r) != Refused && view.withdrawn;
            var (w', prepared, id) := RouteSubmission(cfg, w, k, view);
            prepared == PBlocked && w'.core == SetDevice(w.core, k, Unannounced(d, left))
  {
    hide PrepareFallback, DrainThenFlime, ClusterOk, Clears, SetDevice, LegacyDevice, Numbered, Unannounced, FailDevice;
    var d := w.core.devices[k];
    EmptyClears(cfg.net, w.io);
    FlimeFate(cfg.net, w.io, d.fd, k, PeriodBegin);
    var once := DrainThenFlime(cfg.net, w.io, d.fd, k, PeriodBegin).0;
    EmptyClears(cfg.net, once);
    FlimeFate(cfg.net, once, d.fd, k, Report);
    FailedTold(w.core, k);
  }

  lemma FailedTold(core: Core, k: Handle)
    requires k in core.devices && HasNumber(core.devices[k].nextId)
    ensures var d, n := core.devices[k], Numbered(core.devices[k]);
            && CanNumber(d)
            && k in SetDevice(core, k, n).devices && k in SetDevice(core, k, LegacyDevice(n)).devices
            && FailDevice(SetDevice(core, k, n), k) == SetDevice(core, k, Unannounced(d, false))
            && FailDevice(SetDevice(core, k, LegacyDevice(n)), k) == SetDevice(core, k, Unannounced(d, true))
  {
    SetOver(core, k, Numbered(core.devices[k]));
    SetOver(core, k, LegacyDevice(Numbered(core.devices[k])));
  }

  // --------------------------------------------------------------- described submissions

  predicate Taken(net: Net, r: nat, d: Device, view: SubmitView) {
    if d.early then TakenLast(net, r, view) else TakenWhole(net, r, d, view)
  }

  /** The reservation of a routed submission, and the requests that carried it. */
  function ReservedFor(d: Device, view: SubmitView): Device {
    if d.early
    then d.(early := false, earlyCommand := 0, earlyId := 0, active := true, token := d.earlyId, recovering := false)
    else if HasNumber(d.nextId) then ReservedWhole(d, view) else d
  }

  function Requests(d: Device, k: Handle, view: SubmitView): seq<Entry> {
    (if d.early then [] else Announcements(d, k, view)) + [Controlled(d.fd, k, Route)]
  }

  /** A device whose control page was read and that may be routed for: all that is left to see. */
  lemma SuppressedExactly(cfg: Config, w: World, k: Handle, view: SubmitView)
    requires k in w.core.devices && w.io.cluster == EMPTY_CLUSTER
    requires Suppressing(w.core.devices[k]) && !w.core.devices[k].active && !view.hasOpaque
    ensures var d, r := w.core.devices[k], w.io.rpcs;
            var (w', prepared, id) :=
              if d.early then CompleteEarly(cfg, w, k, view) else RouteSubmission(cfg, w, k, view);
            && (Taken(cfg.net, r, d, view) ==>
                  && prepared == PReady && id == (if d.early then d.earlyId else d.nextId)
                  && w'.core == SetDevice(w.core, k, ReservedFor(d, view))
                  && w'.io.log == w.io.log + Requests(d, k, view))
            && (!Taken(cfg.net, r, d, view) ==>
                  prepared ==
                    if d.early
                    then if HasNumber(d.nextId) && cfg.net(if view.exact then r + 1 else r) == Acked
                         then PFallback else PBlocked
                    else if DrainedWhole(cfg.net, r, d, view) then PFallback else PBlocked)
  {
    hide CompleteEarly, RouteSubmission, TakenLast, DrainedWhole, ReservedWhole, Suppressing;
    var d := w.core.devices[k];
    if d.early { CompleteEarlyExactly(cfg, w, k, view); } else { RouteSubmissionExactly(cfg, w, k, view); }
  }

  /** What a described submission needs besides an acknowledged drain of what is pending. */
  predicate Sound(view: SubmitView) { view.assembled && view.dispatches && !view.hasOpaque }

  /** With the flush behind it: a submission described and read, on a device in its present mode. */
  lemma ReadExactly(cfg: Config, w: World, k: Handle, view: SubmitView)
    requires k in w.core.devices && ClusterOk(w.io.cluster) && Clears(cfg.net, w.io) && view.refreshed && !view.hostLegacy
    requires var d := w.core.devices[k]; !d.active && !d.failed && d.negotiated
    ensures var d, r := w.core.devices[k], Upcoming(w.io);
            var (w', prepared, id) := ProtocolBefore(cfg, w, k, view);
            && (Suppressing(d) && Sound(view) && Taken(cfg.net, r, d, view) ==>
                  && prepared == PReady && id == (if d.early then d.earlyId else d.nextId)
                  && w'.core == SetDevice(w.core, k, ReservedFor(d, view))
                  && w'.io.log == w.io.log + Requests(d, k, view))
            && (!(Suppressing(d) && Sound(view) && Taken(cfg.net, r, d, view)) ==>
                  prepared ==
                    if Suppressing(d) then
                      if !Sound(view)
                      then if HasNumber(d.nextId) && cfg.net(r) == Acked then PFallback else PBlocked
                      else if d.early
                      then if HasNumber(d.nextId) && cfg.net(if view.exact then r + 1 else r) == Acked
                           then PFallback else PBlocked
                      else if DrainedWhole(cfg.net, r, d, view) then PFallback else PBlocked
                    else if d.stage == Legacy || Watched(cfg.net, r, view) then PLegacy else PBlocked)
  {
    hide Flush, CompleteEarly, RouteSubmission, ObserveDetect, PrepareFallback, ClusterOk, Clears, Taken, DrainedWhole,
         ReservedFor, Requests, LegacyDevice;
    var d := w.core.devices[k];
    FlushFate(cfg.net, w.io);
    var flushed := w.(io := Flush(cfg.net, w.io).0);
    SetSame(w.core, k);
    EmptyClears(cfg.net, flushed.io);
    PrepareFallbackExactly(cfg, flushed, k);
    if Suppressing(d) && !view.hasOpaque { SuppressedExactly(cfg, flushed, k, view); }
    if view.assembled { ObserveExactly(cfg, flushed, k, view); }
  }

  /** A host that asks for Legacy in its control page is obeyed before anything else is looked at. */
  lemma WithdrawnExactly(cfg: Config, w: World, k: Handle, view: SubmitView)
    requires k in w.core.devices && ClusterOk(w.io.cluster)
    requires var d := w.core.devices[k]; !d.active && !d.failed
    ensures !Clears(cfg.net, w.io) || !view.refreshed ==> ProtocolBefore(cfg, w, k, view).1 == PBlocked
    ensures Clears(cfg.net, w.io) && view.refreshed && view.hostLegacy ==> ProtocolBefore(cfg, w, k, view).1 == PLegacy
  {
    hide Flush, CompleteEarly, RouteSubmission, ObserveDetect, PrepareFallback, ClusterOk, Clears;
    FlushFate(cfg.net, w.io);
  }

  /** Exactly how a device past its negotiation answers. */
  predicate ReadyHere(net: Net, io: Io, d: Device, view: SubmitView) {
    Suppressing(d) && Routable(view) && Clears(net, io) && Taken(net, Upcoming(io), d, view)
  }

  predicate DrainedHere(net: Net, io: Io, d: Device, view: SubmitView) {
    var r := Upcoming(io);
    && Suppressing(d) && Clears(net, io)
    && (if !view.built then HasNumber(d.nextId) && net(r) == Acked
        else
          && view.refreshed && !view.hostLegacy
          && (if !Sound(view) then HasNumber(d.nextId) && net(r) == Acked
              else if d.early then
                !TakenLast(net, r, view) && HasNumber(d.nextId) && net(if view.exact then r + 1 else r) == Acked
              else DrainedWhole(net, r, d, view)))
  }

  predicate PassedHere(net: Net, io: Io, d: Device, view: SubmitView) {
    if !view.built then d.stage == Detect
    else
      && Clears(net, io) && view.refreshed
      && (view.hostLegacy || d.stage == Legacy || (d.stage == Detect && Watched(net, Upcoming(io), view)))
  }

  lemma ClassifyExactly(cfg: Config, w: World, k: Handle, view: SubmitView)
    requires k in w.core.devices && ClusterOk(w.io.cluster)
    requires var d := w.core.devices[k]; !d.active && !d.failed && d.negotiated
    ensures var d := w.core.devices[k];
            var (w', prepared, id) := Classify(cfg, w, k, view);
            && (prepared == PReady <==> ReadyHere(cfg.net, w.io, d, view))
            && (prepared == PFallback <==> DrainedHere(cfg.net, w.io, d, view))
            && (prepared == PLegacy <==> PassedHere(cfg.net, w.io, d, view))
            && (prepared == PReady ==>
                  && id == (if d.early then d.earlyId else d.nextId)
                  && w'.core == SetDevice(w.core, k, ReservedFor(d, view))
                  && w'.io.log == w.io.log + Requests(d, k, view))
  {
    hide ProtocolBefore, PrepareFallback, ClusterOk, Clears, TakenLast, TakenWhole, ReservedFor, Requests, Watched;
    var d := w.core.devices[k];
    if !view.built {
      PrepareFallbackExactly(cfg, w, k);
    } else {
      WithdrawnExactly(cfg, w, k, view);
      NotBoth(cfg.net, Upcoming(w.io), d, view);
      if Clears(cfg.net, w.io) && view.refreshed && !view.hostLegacy { ReadExactly(cfg, w, k, view); }
    }
  }

  lemma NotBoth(net: Net, r: nat, d: Device, view: SubmitView)
    ensures DrainedWhole(net, r, d, view) ==> !TakenWhole(net, r, d, view)
  {
  }

  // ------------------------------------------------------------------------- the gate

  lemma AdoptExactly(cfg: Config, w: World, k: Handle, queue: Handle)
    requires k in w.core.devices && ClusterOk(w.io.cluster)
    ensures var d := w.core.devices[k];
            var (w', ok) := AdoptQueue(cfg, w, k, queue);
            && (Unhindered(d, queue) ==> ok && w' == WithDevice(w, k, d.(queue := queue)))
            && (!Unhindered(d, queue) ==>
                  && (ok <==> Drainable(d) && Clears(cfg.net, w.io) && cfg.net(Upcoming(w.io)) == Acked)
                  && (ok ==> w'.core.devices[k] == AfterDrain(d).(queue := queue)))
  {
    hide FallbackOrFail, ClusterOk, Clears;
    var d := w.core.devices[k];
    SetSame(w.core, k);
    FallbackOrFailExactly(cfg, w, k);
  }

  lemma NegotiateExactly(cfg: Config, w: World, k: Handle, refused: bool)
    requires k in w.core.devices && ClusterOk(w.io.cluster)
    ensures var d := w.core.devices[k];
            var (w', ok) := Negotiate(cfg, w, k, refused);
            var sent := if Clears(cfg.net, w.io) then cfg.net(Upcoming(w.io)) else Refused;
            && (ok <==> sent == Acked && !refused)
            && w'.core == SetDevice(w.core, k,
                 if sent == Refused then d.(failed := true)
                 else if sent != Acked then d.(failed := true, exposed := true)
                 else if refused then
                   d.(exposed := true, stage := Legacy, negotiated := false, active := false, token := 0,
                      recovering := false, early := false, earlyCommand := 0, earlyId := 0)
                 else d.(exposed := true, negotiated := true, stage := Detect))
            && (ok ==> w'.io.cluster == EMPTY_CLUSTER && w'.io.rpcs == Upcoming(w.io) + 1)
            && w'.io.log == (if sent == Acked || sent == InDoubt
                             then w.io.log + [Controlled(d.fd, k, Capabilities)] else w.io.log)
  {
    hide DrainThenFlime, ClusterOk, Clears;
    FlimeFate(cfg.net, w.io, w.core.devices[k].fd, k, Capabilities);
  }

  /** The answer of a submission on device k, past its wait. */
  predicate Answers(r: (World, Gate, Token), ready: bool, drained: bool, passed: bool) {
    && (r.1 == ReadyGate <==> ready) && (r.2.specialized <==> ready)
    && (r.2.fallback <==> drained)
    && (r.1 == LegacyGate <==> drained || passed)
  }

  /** A device that is not negotiated when it is submitted to. */
  lemma UnnegotiatedExactly(cfg: Config, w: World, k: Handle, queue: Handle, view: SubmitView)
    requires Owner(w.core.queueDevices, w.core.devices, queue) == Some(k) && ClusterOk(w.io.cluster)
    requires var d := w.core.devices[k];
             !d.active && Unhindered(d, queue) && !d.failed && !d.negotiated && d.stage != Legacy
    ensures Answers(BeforeSubmit(cfg, w, queue, view), false, false,
                    Passed(cfg.net, w.io, w.core.devices[k], queue, view))
  {
    hide AdoptQueue, Negotiate, Classify, ClusterOk, Clears, Watched, Suppressing;
    AdoptExactly(cfg, w, k, queue);
    var adopted := AdoptQueue(cfg, w, k, queue).0;
    NegotiatedMode(cfg, adopted, k, view.refused);
    var (ready, ok) := Negotiate(cfg, adopted, k, view.refused);
    if ok { DetectExactly(cfg, ready, k, view); }
  }

  lemma NegotiatedMode(cfg: Config, w: World, k: Handle, refused: bool)
    requires k in w.core.devices && ClusterOk(w.io.cluster) && w.core.devices[k].stage != Legacy
    ensures var (w', ok) := Negotiate(cfg, w, k, refused);
            var d, e := w.core.devices[k], w'.core.devices[k];
            var sent := Clears(cfg.net, w.io) && cfg.net(Upcoming(w.io)) == Acked;
            && (ok <==> sent && !refused)
            && (e.stage == Legacy <==> sent && refused)
            && (ok ==> e.stage == Detect && e.negotiated && e.failed == d.failed && e.active == d.active)
            && (ok ==> w'.io.cluster == EMPTY_CLUSTER && w'.io.rpcs == Upcoming(w.io) + 1)
  {
    hide DrainThenFlime, ClusterOk, Clears, Negotiated;
    var d := w.core.devices[k];
    FlimeFate(cfg.net, w.io, d.fd, k, Capabilities);
    ModeOf(d, DrainThenFlime(cfg.net, w.io, d.fd, k, Capabilities).1, refused);
  }

  lemma ModeOf(d: Device, sent: Outcome, refused: bool)
    requires d.stage != Legacy
    ensures var e := Negotiated(d, sent, refused);
            && (e.stage == Legacy <==> sent == Acked && refused)
            && (sent == Acked && !refused ==>
                  e.stage == Detect && e.negotiated && e.failed == d.failed && e.active == d.active)
  {
  }

  /** A device in Detect with nothing pending only watches. */
  lemma DetectExactly(cfg: Config, w: World, k: Handle, view: SubmitView)
    requires k in w.core.devices && w.io.cluster == EMPTY_CLUSTER
    requires var d := w.core.devices[k]; !d.active && !d.failed && d.negotiated && d.stage == Detect
    ensures Classify(cfg, w, k, view).1
         == if !view.built || (view.refreshed && Watched(cfg.net, w.io.rpcs, view)) then PLegacy else PBlocked
  {
    hide Classify, ClusterOk, Clears, Watched, Taken, TakenLast, DrainedWhole, ReservedFor, Requests;
    EmptyClears(cfg.net, w.io);
    HostLegacyWatched(cfg.net, w.io.rpcs, view);
    ClassifyExactly(cfg, w, k, view);
  }

  lemma HostLegacyWatched(net: Net, r: nat, view: SubmitView)
    ensures view.hostLegacy ==> Watched(net, r, view)
  {
  }

  /** A device whose route for another queue is in the way, or that is failed or in Legacy already. */
  lemma HinderedExactly(cfg: Config, w: World, k: Handle, queue: Handle, view: SubmitView)
    requires Owner(w.core.queueDevices, w.core.devices, queue) == Some(k) && ClusterOk(w.io.cluster)
    requires var d := w.core.devices[k];
             !d.active && (!Unhindered(d, queue) || d.failed || (!d.negotiated && d.stage == Legacy))
    ensures Answers(BeforeSubmit(cfg, w, queue, view), false, false,
                    Passed(cfg.net, w.io, w.core.devices[k], queue, view))
  {
    hide AdoptQueue, Negotiate, Classify, ClusterOk, Clears, Watched;
    AdoptExactly(cfg, w, k, queue);
  }

  lemma NegotiatedExactly(cfg: Config, w: World, k: Handle, queue: Handle, view: SubmitView)
    requires Owner(w.core.queueDevices, w.core.devices, queue) == Some(k) && ClusterOk(w.io.cluster)
    requires var d := w.core.devices[k]; !d.active && Unhindered(d, queue) && !d.failed && d.negotiated
    ensures var d := w.core.devices[k];
            && Answers(BeforeSubmit(cfg, w, queue, view), Ready(cfg.net, w.io, d, queue, view),
                       Drained(cfg.net, w.io, d, queue, view), Passed(cfg.net, w.io, d, queue, view))
            && (Ready(cfg.net, w.io, d, queue, view) ==> Reserves(cfg, w, k, queue, view))
  {
    hide AdoptQueue, Classify, ClusterOk, Clears, TakenLast, TakenWhole, DrainedWhole, Watched, Announcements;
    AdoptExactly(cfg, w, k, queue);
    var adopted := AdoptQueue(cfg, w, k, queue).0;
    QueueAside(cfg.net, w.io, w.core.devices[k], queue, k, view);
    SetOver(w.core, k, w.core.devices[k].(queue := queue));
    ClassifyExactly(cfg, adopted, k, view);
  }

  /** Which queue a device was last submitted to has no bearing on the rest. */
  lemma QueueAside(net: Net, io: Io, d: Device, queue: Handle, k: Handle, view: SubmitView)
    ensures var e, r := d.(queue := queue), Upcoming(io);
            && TakenWhole(net, r, e, view) == TakenWhole(net, r, d, view)
            && DrainedWhole(net, r, e, view) == DrainedWhole(net, r, d, view)
            && ReservedFor(e, view) == ReservedFor(d, view).(queue := queue)
            && Requests(e, k, view) == Requests(d, k, view)
  {
    hide TakenWhole, DrainedWhole, ReservedFor;
    SameNumber(net, Upcoming(io), d, d.(queue := queue), view);
    ReservedAside(d, queue, view);
  }

  lemma SameNumber(net: Net, r: nat, d: Device, e: Device, view: SubmitView)
    requires e.nextId == d.nextId
    ensures TakenWhole(net, r, e, view) == TakenWhole(net, r, d, view)
    ensures DrainedWhole(net, r, e, view) == DrainedWhole(net, r, d, view)
  {
  }

  lemma ReservedAside(d: Device, queue: Handle, view: SubmitView)
    ensures ReservedFor(d.(queue := queue), view) == ReservedFor(d, view).(queue := queue)
  {
    if d.early {
      assert d.(queue := queue).early;
    } else if HasNumber(d.nextId) {
      assert d.(queue := queue).nextId == d.nextId;
    } else {
      assert d.(queue := queue).nextId == d.nextId;
    }
  }

  /** What a routed submission leaves: its device reserved under its number, and exactly its requests. */
  predicate Reserves(cfg: Config, w: World, k: Handle, queue: Handle, view: SubmitView)
    requires k in w.core.devices
  {
    var (w', gate, token) := BeforeSubmit(cfg, w, queue, view);
    var d := w.core.devices[k];
    && token.device == k && token.id == (if d.early then d.earlyId else d.nextId)
    && w'.core == SetDevice(w.core, k, ReservedFor(d, view).(queue := queue))
    && w'.io.log == w.io.log + Requests(d, k, view)
  }

  /**
   * A submission past its wait is routed, drained, passed on or blocked exactly as the device, what
   * the call is told and the network's answers decide; and a routed one leaves its device reserved
   * under its number with exactly its own requests on the log.
   */
  lemma BeforeSubmitExactly(cfg: Config, w: World, queue: Handle, view: SubmitView, k: Handle)
    requires Owner(w.core.queueDevices, w.core.devices, queue) == Some(k) && ClusterOk(w.io.cluster)
    requires !w.core.devices[k].active
    ensures var (w', gate, token) := BeforeSubmit(cfg, w, queue, view);
            var d := w.core.devices[k];
            var ready, drained := Ready(cfg.net, w.io, d, queue, view), Drained(cfg.net, w.io, d, queue, view);
            && (gate == ReadyGate <==> ready) && (token.specialized <==> ready)
            && (token.fallback <==> drained)
            && (gate == LegacyGate <==> drained || Passed(cfg.net, w.io, d, queue, view))
            && (ready ==> Reserves(cfg, w, k, queue, view))
  {
    hide BeforeSubmit, ClusterOk, Clears, TakenLast, TakenWhole, DrainedWhole, Passed, Reserves, Routable;
    var d := w.core.devices[k];
    if !Unhindered(d, queue) || d.failed || (!d.negotiated && d.stage == Legacy) {
      HinderedExactly(cfg, w, k, queue, view);
    } else if !d.negotiated {
      UnnegotiatedExactly(cfg, w, k, queue, view);
    } else {
      NegotiatedExactly(cfg, w, k, queue, view);
    }
  }

  // ------------------------------------------------------- what is never routed

  /** No announcement or route joined the log. */
  predicate Unrouted(log: seq<Entry>, log': seq<Entry>) {
    && log <= log'
    && forall i | |log| <= i < |log'| :: log'[i].Controlled? ==> log'[i].kind != PeriodBegin && log'[i].kind != Route
  }

  lemma UnroutedThen(a: seq<Entry>, b: seq<Entry>, c: seq<Entry>)
    requires Unrouted(a, b) && Unrouted(b, c)
    ensures Unrouted(a, c)
  {
  }

  lemma RequestUnrouted(net: Net, io: Io, fd: int, k: Handle, kind: FlimeKind)
    requires kind != PeriodBegin && kind != Route
    ensures Unrouted(io.log, Flush(net, io).0.log) && Unrouted(io.log, DrainThenFlime(net, io, fd, k, kind).0.log)
  {
  }

  lemma FallbackUnrouted(cfg: Config, w: World, k: Handle)
    requires k in w.core.devices
    ensures Unrouted(w.io.log, Fallback(cfg, w, k).0.io.log)
    ensures Unrouted(w.io.log, PrepareFallback(cfg, w, k).0.io.log)
    ensures Unrouted(w.io.log, FallbackOrFail(cfg, w, k).0.io.log)
  {
    hide DrainThenFlime, Unrouted, DrainedDevice, Specialized;
    SameUnrouted(w.io.log);
    RequestUnrouted(cfg.net, w.io, w.core.devices[k].fd, k, FallbackFlush);
  }

  lemma SameUnrouted(log: seq<Entry>)
    ensures Unrouted(log, log)
  {
  }

  lemma ObserveUnrouted(cfg: Config, w: World, k: Handle, view: SubmitView)
    requires k in w.core.devices
    ensures Unrouted(w.io.log, ObserveDetect(cfg, w, k, view).0.io.log)
  {
    hide DrainThenFlime, Unrouted, SubmitOps.Observed;
    SameUnrouted(w.io.log);
    var fd := w.core.devices[k].fd;
    RequestUnrouted(cfg.net, w.io, fd, k, Interval);
    var once := DrainThenFlime(cfg.net, w.io, fd, k, Interval).0;
    RequestUnrouted(cfg.net, once, fd, k, Interval);
    UnroutedThen(w.io.log, once.log, DrainThenFlime(cfg.net, once, fd, k, Interval).0.log);
  }

  lemma ClassifyUnrouted(cfg: Config, w: World, k: Handle, view: SubmitView)
    requires k in w.core.devices && (!view.dispatches || view.hasOpaque)
    ensures Unrouted(w.io.log, Classify(cfg, w, k, view).0.io.log)
  {
    hide Flush, Unrouted, PrepareFallback, ObserveDetect, CompleteEarly, RouteSubmission, LegacyDevice;
    SameUnrouted(w.io.log);
    FallbackUnrouted(cfg, w, k);
    RequestUnrouted(cfg.net, w.io, 0, k, Report);
    var io := Flush(cfg.net, w.io).0;
    var d := if view.hostLegacy then LegacyDevice(w.core.devices[k]) else w.core.devices[k];
    var w' := World(SetDevice(w.core, k, d), io);
    FallbackUnrouted(cfg, w', k);
    UnroutedThen(w.io.log, io.log, PrepareFallback(cfg, w', k).0.io.log);
    ObserveUnrouted(cfg, w', k, view);
    UnroutedThen(w.io.log, io.log, ObserveDetect(cfg, w', k, view).0.io.log);
  }

  /**
   * A submission with an unclassified command, or without any dispatch, never gets a specialized
   * token, and no announcement and no route of any device joins the log on its account.
   */
  lemma OpaqueNeverRouted(cfg: Config, w: World, queue: Handle, view: SubmitView, k: Handle)
    requires Owner(w.core.queueDevices, w.core.devices, queue) == Some(k) && ClusterOk(w.io.cluster)
    requires !w.core.devices[k].active && (!view.dispatches || view.hasOpaque)
    ensures var (w', gate, token) := BeforeSubmit(cfg, w, queue, view);
            gate != ReadyGate && !token.specialized && Unrouted(w.io.log, w'.io.log)
  {
    hide BeforeSubmit, ClusterOk, Clears, Passed, Drained, Reserves, TakenLast, TakenWhole, Unrouted;
    BeforeSubmitExactly(cfg, w, queue, view, k);
    BeforeSubmitUnrouted(cfg, w, queue, view, k);
  }

  lemma BeforeSubmitUnrouted(cfg: Config, w: World, queue: Handle, view: SubmitView, k: Handle)
    requires Owner(w.core.queueDevices, w.core.devices, queue) == Some(k) && (!view.dispatches || view.hasOpaque)
    ensures Unrouted(w.io.log, BeforeSubmit(cfg, w, queue, view).0.io.log)
  {
    hide Unrouted, FallbackOrFail, DrainThenFlime, Negotiated, Classify;
    SameUnrouted(w.io.log);
    FallbackUnrouted(cfg, w, k);
    var adopted := AdoptQueue(cfg, w, k, queue).0;
    var d := adopted.core.devices[k];
    RequestUnrouted(cfg.net, adopted.io, d.fd, k, Capabilities);
    var ready := EnsureNegotiated(cfg, adopted, k, view.refused).0;
    SameUnrouted(adopted.io.log);
    UnroutedThen(w.io.log, adopted.io.log, ready.io.log);
    ClassifyUnrouted(cfg, ready, k, view);
    UnroutedThen(w.io.log, ready.io.log, Classify(cfg, ready, k, view).0.io.log);
  }
}
