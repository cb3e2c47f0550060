/**
 * The critical sections of queue submission, of the descriptor-lifecycle reservation and of
 * device teardown.  Each is taken up once its wait condition is false.
 */
module SubmitOps {
  import opened GuestTypes
  import opened Wire
  import opened GuestState
  import RegistryOps

  datatype Gate = LegacyGate | ReadyGate | BlockedGate

  datatype Token = Token(
    device: Handle, queue: Handle, id: u64, specialized: bool, fallback: bool, valid: bool)

  const NO_TOKEN := Token(0, 0, 0, false, false, false)

  /** What a submission waits for, and what a descriptor-lifecycle reservation waits for. */
  predicate SubmitWaits(d: Device) { d.active || d.lifecycle != 0 }

  predicate LifecycleWaits(d: Device) { d.active }

  // ------------------------------------------------------------ before submit

  /** How the host disposes of a routed submission it received. */
  datatype Verdict = Accepted | NeedsRecovery | Rejected

  /** Everything the submission protocol learns from state this model does not hold. */
  datatype SubmitView = SubmitView(
    refused: bool,        // the host answers a capability request by asking for Legacy
    built: bool,          // the submit could be described semantically
    refreshed: bool,      // the control page could be read
    hostLegacy: bool,     // and it asks for Legacy
    assembled: bool,      // the recorded graph and its record frontier are complete
    dispatches: bool,     // at least one dispatch is submitted
    hasOpaque: bool,      // an unclassified command is submitted
    exact: bool,          // the submit is the one an early route prefix was sent for
    recovering: bool,     // the period does not match what was learned
    checkpoint: bool,     // a complete recovery checkpoint could be prepared
    planned: bool,        // units and chunks could be planned
    mismatch: bool,       // a mismatch is reported to the host first
    verdict: Verdict,
    verified: bool,       // the recovery checkpoint still holds after routing
    promoted: bool,       // Detect has seen enough repetition to start learning
    withdrawn: bool,      // a reply to an interval or period announcement asks for Legacy
    disowned: bool)       // the reply to the mismatch report asks for Legacy

  datatype Prepared = PLegacy | PReady | PBlocked | PFallback

  /** PrepareFallbackLegacySubmitLocked: on success the device is reserved for the drain's id. */
  function PrepareFallback(cfg: Config, w: World, k: Handle): (r: (World, Prepared, u64))
    requires k in w.core.devices
    ensures k in r.0.core.devices
  {
    var (w', id) := Fallback(cfg, w, k);
    match id
    case None => (w'.(core := FailDevice(w'.core, k)), PBlocked, 0)
    case Some(id) =>
      (WithDevice(w', k, w'.core.devices[k].(active := true, token := id)), PFallback, id)
  }

  function Blocked(w: World, k: Handle): (r: (World, Prepared, u64))
    requires k in w.core.devices
    ensures k in r.0.core.devices
  {
    (w.(core := FailDevice(w.core, k)), PBlocked, 0)
  }

  /** SaveActiveOccurrence. */
  function Reserve(w: World, k: Handle, id: u64, recovering: bool): (r: (World, Prepared, u64))
    requires k in w.core.devices
    ensures k in r.0.core.devices
  {
    var d := w.core.devices[k];
    (WithDevice(w, k, d.(active := true, token := id, recovering := recovering)), PReady, id)
  }

  /** The last chunk of a submission whose earlier chunks were sent ahead. */
  function CompleteEarly(cfg: Config, w: World, k: Handle, view: SubmitView): (r: (World, Prepared, u64))
    requires k in w.core.devices
    ensures k in r.0.core.devices
  {
    var d := w.core.devices[k];
    if view.hasOpaque || !view.exact then PrepareFallback(cfg, w, k)
    else
      var (io, sent) := DrainThenFlime(cfg.net, w.io, d.fd, k, Route);
      if sent != Acked || view.verdict != Accepted then PrepareFallback(cfg, w.(io := io), k)
      else Reserve(World(SetDevice(w.core, k, d.(early := false, earlyCommand := 0, earlyId := 0)), io),
                   k, d.earlyId, false)
  }

  /** Routes a whole submission under a fresh id. */
  function RouteSubmission(cfg: Config, w: World, k: Handle, view: SubmitView): (r: (World, Prepared, u64))
    requires k in w.core.devices
    ensures k in r.0.core.devices
  {
    var d := w.core.devices[k];
    if view.recovering && !view.checkpoint then PrepareFallback(cfg, w, k)
    else if !CanNumber(d) || !view.planned then Blocked(w, k)
    else
      var numbered := Numbered(d);
      var (begun, sent) := DrainThenFlime(cfg.net, w.io, d.fd, k, PeriodBegin);
      if sent != Acked || view.withdrawn
      then Blocked(World(SetDevice(w.core, k, Told(numbered, sent, view.withdrawn)), begun), k)
      else
        var (told, sent') := if view.mismatch then DrainThenFlime(cfg.net, begun, d.fd, k, Report)
                             else (begun, Acked);
        var disowned := view.mismatch && view.disowned;
        if sent' != Acked || disowned
        then Blocked(World(SetDevice(w.core, k, Told(numbered, sent', disowned)), told), k)
        else
          var (routed, sent'') := DrainThenFlime(cfg.net, told, d.fd, k, Route);
          var w' := World(SetDevice(w.core, k, numbered), routed);
          var verdict := if sent'' == Acked then view.verdict else Rejected;
          if verdict == NeedsRecovery && !view.recovering then PrepareFallback(cfg, w', k)
          else if verdict != Accepted
          then if view.recovering then PrepareFallback(cfg, w', k) else Blocked(w', k)
          else if view.recovering && !view.verified then PrepareFallback(cfg, w', k)
          else Reserve(w', k, d.nextId, view.recovering)
  }

  /** Detect after its announcements: first says whether the first reached the host, sent how they fared. */
  function Observed(d: Device, first: Outcome, sent: Outcome, withdrawn: bool): Device {
    var told := Told(d, first, withdrawn);
    if sent != Acked then told.(failed := true) else if withdrawn then told else told.(stage := Learn)
  }

  /** A submission in Detect is only observed; a repeated one is announced twice and starts learning. */
  function ObserveDetect(cfg: Config, w: World, k: Handle, view: SubmitView): (r: (World, Prepared, u64))
    requires k in w.core.devices
    ensures k in r.0.core.devices
  {
    var d := w.core.devices[k];
    if !view.dispatches || !view.promoted then (w, PLegacy, 0)
    else
      var (once, first) := DrainThenFlime(cfg.net, w.io, d.fd, k, Interval);
      var (io, sent) := if first == Acked then DrainThenFlime(cfg.net, once, d.fd, k, Interval) else (once, first);
      (World(SetDevice(w.core, k, Observed(d, first, sent, view.withdrawn)), io),
       if sent == Acked then PLegacy else PBlocked, 0)
  }

  /** ProtocolBeforeSubmitLocked. */
  function ProtocolBefore(cfg: Config, w: World, k: Handle, view: SubmitView): (r: (World, Prepared, u64))
    requires k in w.core.devices
    ensures k in r.0.core.devices
  {
    var (io, flushed) := Flush(cfg.net, w.io);
    if w.core.devices[k].failed || w.core.devices[k].active then Blocked(w, k)
    else if !flushed || !view.refreshed then Blocked(w.(io := io), k)
    else
      var d := if view.hostLegacy then LegacyDevice(w.core.devices[k]) else w.core.devices[k];
      var w' := World(SetDevice(w.core, k, d), io);
      if !view.assembled
      then if d.stage == Detect || d.stage == Legacy then (w', PLegacy, 0) else PrepareFallback(cfg, w', k)
      else if d.stage == Legacy || !d.negotiated then (w', PLegacy, 0)
      else if d.stage == Detect then ObserveDetect(cfg, w', k, view)
      else if !view.dispatches || view.hasOpaque then PrepareFallback(cfg, w', k)
      else if d.early then CompleteEarly(cfg, w', k, view)
      else RouteSubmission(cfg, w', k, view)
  }

  /** EnsureNegotiatedLocked. */
  function EnsureNegotiated(cfg: Config, w: World, k: Handle, refused: bool): (r: (World, bool))
    requires k in w.core.devices
    ensures k in r.0.core.devices
  {
    var d := w.core.devices[k];
    if d.failed then (w, false)
    else if d.negotiated then (w, true)
    else if d.stage == Legacy then (w, false)
    else RegistryOps.Negotiate(cfg, w, k, refused)
  }

  /** Moves a device to the queue being submitted to. */
  function AdoptQueue(cfg: Config, w: World, k: Handle, queue: Handle): (r: (World, bool))
    requires k in w.core.devices
    ensures k in r.0.core.devices
  {
    var d := w.core.devices[k];
    if d.queue == queue then (w, true)
    else
      var (w', ok) := if d.queue == 0 then (w, true) else DrainEarly(cfg, w, k);
      if ok then (WithDevice(w', k, w'.core.devices[k].(queue := queue)), true) else (w', false)
  }

  /** Classifies a submit whose device answered the negotiation. */
  function Classify(cfg: Config, w: World, k: Handle, view: SubmitView): (r: (World, Prepared, u64))
    requires k in w.core.devices
    ensures k in r.0.core.devices
  {
    var d := w.core.devices[k];
    if view.built then ProtocolBefore(cfg, w, k, view)
    else if d.stage == Detect then (w, PLegacy, 0)
    else if Specialized(d) then PrepareFallback(cfg, w, k)
    else Blocked(w, k)
  }

  function GateOf(p: Prepared): Gate {
    match p case PReady => ReadyGate case PBlocked => BlockedGate case _ => LegacyGate
  }

  /** FlimeGuestBeforeQueueSubmit and FlimeGuestBeforeQueueSubmit2, after their wait. */
  function BeforeSubmit(cfg: Config, w: World, queue: Handle, view: SubmitView): (World, Gate, Token) {
    match Owner(w.core.queueDevices, w.core.devices, queue)
    case None => (w, LegacyGate, NO_TOKEN.(queue := queue))
    case Some(k) =>
      var token := NO_TOKEN.(device := k, queue := queue, valid := true);
      var (adopted, ok) := AdoptQueue(cfg, w, k, queue);
      if !ok then (adopted, BlockedGate, token)
      else
        var (ready, negotiated) := EnsureNegotiated(cfg, adopted, k, view.refused);
        if !negotiated
        then (ready, if ready.core.devices[k].stage == Legacy then LegacyGate else BlockedGate, token)
        else
          var (w', prepared, id) := Classify(cfg, ready, k, view);
          (w', GateOf(prepared),
           token.(id := id, specialized := prepared == PReady, fallback := prepared == PFallback))
  }

  // ------------------------------------------------------------- after submit

  /** What the completion of a submission learns from state this model does not hold. */
  datatype AfterView = AfterView(
    checkpoint: bool,   // the recovery checkpoint still holds and its records can be retired
    next: Stage,        // the stage a fully reported period leads to
    retired: bool,      // the consumed records could be retired
    withdrawn: bool,    // the reply to the first report asks for Legacy
    disowned: bool)     // the reply to the second one does

  /** FailActiveSubmitLocked: it clears the submission in progress, whosever it is. */
  function FailActive(w: World, k: Handle): World
    requires k in w.core.devices
  {
    WithDevice(w, k, Inactive(w.core.devices[k]).(failed := true))
  }

  /** FallbackActiveRecoveryToLegacyLocked, or failure when the drain does not go through. */
  function AbandonRecovery(cfg: Config, w: World, k: Handle): World
    requires k in w.core.devices
  {
    var (w', id) := Fallback(cfg, WithDevice(w, k, w.core.devices[k].(active := false)), k);
    if id.Some? then w' else FailActive(w', k)
  }

  /** ProtocolAfterSubmitLocked. */
  function ProtocolAfter(cfg: Config, w: World, k: Handle, id: u64, ok: bool, view: AfterView): World
    requires k in w.core.devices
  {
    var d := w.core.devices[k];
    if !d.active || id == 0 || id != d.token || !ok then FailActive(w, k)
    else if d.recovering && !view.checkpoint then AbandonRecovery(cfg, w, k)
    else
      var (io, sent) := DrainThenFlime(cfg.net, w.io, d.fd, k, Report);
      var w' := w.(io := io);
      if sent != Refused && view.withdrawn then FailActive(WithDevice(w', k, LegacyDevice(d)), k)
      else if d.recovering then
        if sent != Acked then AbandonRecovery(cfg, w', k)
        else WithDevice(w', k, Inactive(d).(stage := Detect, early := false, earlyCommand := 0, earlyId := 0))
      else if sent != Acked then FailActive(w', k)
      else
        var (io', sent') := DrainThenFlime(cfg.net, io, d.fd, k, Report);
        if sent' != Refused && view.disowned then FailActive(WithDevice(w'.(io := io'), k, LegacyDevice(d)), k)
        else if sent' != Acked then FailActive(w'.(io := io'), k)
        else WithDevice(w'.(io := io'), k,
                        Inactive(d).(stage := view.next, failed := d.failed || !view.retired))
  }

  /** Whether an After step does anything at all for this token. */
  predicate Releases(token: Token) { token.valid && (token.specialized || token.fallback) }

  /** FlimeGuestAfterQueueSubmit, up to the notification that follows it. */
  function AfterSubmit(cfg: Config, w: World, token: Token, ok: bool, view: AfterView): World {
    if !Releases(token) || token.device !in w.core.devices then w
    else
      var k, d := token.device, w.core.devices[token.device];
      if token.fallback then
        if d.active && d.token == token.id
        then WithDevice(w, k, Inactive(d).(failed := d.failed || !ok)) else w
      else ProtocolAfter(cfg, w, k, token.id, ok, view)
  }

  // --------------------------------------------------- lifecycle and teardown

  /** FlimeGuestBeforeDescriptorLifecycle, after its wait. */
  function BeginLifecycle(cfg: Config, w: World, k: Handle): World {
    if k !in w.core.devices then w
    else
      var w' := DrainEarly(cfg, w, k).0;
      WithDevice(w', k, w'.core.devices[k].(lifecycle := w'.core.devices[k].lifecycle + 1))
  }

  /** FlimeGuestPrepareDescriptorRetirement; live says whether unsent records exist. */
  function PrepareRetirement(cfg: Config, w: World, k: Handle, live: bool): (World, bool) {
    if k !in w.core.devices then (w, true)
    else
      var d := w.core.devices[k];
      if !Specialized(d) || (!d.early && !live) then (w, true)
      else if d.failed then (w, false)
      else FallbackOrFail(cfg, w, k)
  }

  /** FlimeGuestAfterDescriptorLifecycle, up to the notification that follows it. */
  function EndLifecycle(w: World, k: Handle, ok: bool): World {
    if k !in w.core.devices then w
    else
      var d := w.core.devices[k];
      WithDevice(w, k, d.(failed := d.failed || !ok,
                          lifecycle := if d.lifecycle == 0 then 0 else d.lifecycle - 1))
  }

  function TornDown(d: Device): Device { d.(tornDown := true, exposed := false, negotiated := false) }

  /** FlimeGuestBeforeDestroyDevice, after its wait. */
  function BeforeDestroy(cfg: Config, w: World, k: Handle): (World, bool) {
    if k !in w.core.devices then (w, true)
    else
      var (drained, ok) := DrainEarly(cfg, w, k);
      var (io, flushed) := Flush(cfg.net, drained.io);
      var d := drained.core.devices[k];
      if !ok then (drained, false)
      else if !flushed then (World(FailDevice(drained.core, k), io), false)
      else if !d.exposed then (World(SetDevice(drained.core, k, TornDown(d)), io), true)
      else
        var (sent, outcome) := SendFlime(cfg.net, io, d.fd, k, Teardown);
        if outcome == Acked then (World(SetDevice(drained.core, k, TornDown(d)), sent), true)
        else (World(FailDevice(drained.core, k), sent), false)
  }
}
