/**
 * Exactly what state the completion of a submission, the end of a descriptor lifecycle and the
 * retirement of descriptors leave a device in, and which requests they make.
 */
module CompletionExactly {
  import opened GuestTypes
  import opened ClusterCodec
  import opened ClusterProofs
  import opened Wire
  import opened GuestState
  import opened SubmitOps
  import opened Fates

  /** The device with its reservation gone and marked failed. */
  function Dropped(d: Device): Device {
    d.(active := false, token := 0, recovering := false, failed := true)
  }

  /** A token the gate gives out for a routed submission. */
  predicate ForRouted(token: Token) { token.valid && token.specialized && !token.fallback }

  /**
   * A specialized completion that is not for the submission in progress, or whose native submit
   * failed, asks the host for nothing: the device is failed and free, in the stage it was in.
   */
  lemma RefusedExactly(cfg: Config, w: World, token: Token, ok: bool, view: AfterView)
    requires ForRouted(token) && token.device in w.core.devices
    requires var d := w.core.devices[token.device]; !ok || !d.active || token.id == 0 || token.id != d.token
    ensures AfterSubmit(cfg, w, token, ok, view)
         == World(SetDevice(w.core, token.device, Dropped(w.core.devices[token.device])), w.io)
  {
    hide AbandonRecovery, DrainThenFlime;
  }

  // ------------------------------------------------------------------ ordinary periods

  /** The fates of the two reports that end a period; the second is made only after a good first. */
  datatype Reports = Reports(first: Outcome, second: Outcome)

  function ReportFates(net: Net, io: Io, view: AfterView): Reports {
    var first := if Clears(net, io) then net(Upcoming(io)) else Refused;
    Reports(first, if first == Acked && !view.withdrawn then net(Upcoming(io) + 1) else Refused)
  }

  /** Both reports are acknowledged and neither is answered by a withdrawal. */
  predicate Reported(r: Reports, view: AfterView) {
    r.first == Acked && !view.withdrawn && r.second == Acked && !view.disowned
  }

  /** A report that may have reached the host is answered by one. */
  predicate Left(r: Reports, view: AfterView) {
    (r.first != Refused && view.withdrawn) || (r.second != Refused && view.disowned)
  }

  function Count(o: Outcome): nat { if o == Acked || o == InDoubt then 1 else 0 }

  /** The device a completed period leaves behind. */
  function PeriodEnd(d: Device, r: Reports, view: AfterView): Device {
    var free := d.(active := false, token := 0, recovering := false);
    if Reported(r, view) then free.(stage := view.next, failed := d.failed || !view.retired)
    else if Left(r, view)
    then free.(failed := true, stage := Legacy, negotiated := false, early := false, earlyCommand := 0, earlyId := 0)
    else free.(failed := true)
  }

  lemma FailActiveIs(w: World, k: Handle, e: Device)
    requires k in w.core.devices
    ensures FailActive(w, k) == World(SetDevice(w.core, k, Dropped(w.core.devices[k])), w.io)
    ensures FailActive(WithDevice(w, k, e), k) == World(SetDevice(w.core, k, Dropped(e)), w.io)
  {
    assert w.core.devices[k := e][k := Dropped(e)] == w.core.devices[k := Dropped(e)];
  }

  lemma LeftIs(d: Device)
    ensures Dropped(LegacyDevice(d)) == d.(active := false, token := 0, recovering := false, failed := true,
              stage := Legacy, negotiated := false, early := false, earlyCommand := 0, earlyId := 0)
  {
  }

  /** The reports of a period as requests. */
  lemma ReportsExactly(cfg: Config, io: Io, fd: int, k: Handle, view: AfterView)
    requires ClusterOk(io.cluster)
    ensures var r := ReportFates(cfg.net, io, view);
            var (once, sent) := DrainThenFlime(cfg.net, io, fd, k, Report);
            var (twice, sent') := DrainThenFlime(cfg.net, once, fd, k, Report);
            && sent == r.first && (sent == Acked && !view.withdrawn ==> sent' == r.second)
            && once.log == io.log + (if Count(r.first) == 1 then [Controlled(fd, k, Report)] else [])
            && (sent == Acked && !view.withdrawn ==>
                  twice.log == once.log + (if Count(r.second) == 1 then [Controlled(fd, k, Report)] else []))
  {
    hide DrainThenFlime, ClusterOk, Clears;
    FlimeFate(cfg.net, io, fd, k, Report);
    var once := DrainThenFlime(cfg.net, io, fd, k, Report).0;
    if Clears(cfg.net, io) { EmptyClears(cfg.net, once); }
    FlimeFate(cfg.net, once, fd, k, Report);
  }

  /**
   * The completion of an ordinary routed submission whose native submit succeeded: the device is left
   * as its two reports fared, and these are all that is sent.
   */
  lemma PeriodExactly(cfg: Config, w: World, token: Token, view: AfterView)
    requires ForRouted(token) && token.device in w.core.devices && ClusterOk(w.io.cluster)
    requires var d := w.core.devices[token.device];
             d.active && token.id != 0 && token.id == d.token && !d.recovering
    ensures var k, d := token.device, w.core.devices[token.device];
            var w', r := AfterSubmit(cfg, w, token, true, view), ReportFates(cfg.net, w.io, view);
            && w'.core == SetDevice(w.core, k, PeriodEnd(d, r, view))
            && w'.io.log == w.io.log + seq(Count(r.first) + Count(r.second), i => Controlled(d.fd, k, Report))
  {
    hide DrainThenFlime, ClusterOk, AbandonRecovery, FailActive, LegacyDevice, ReportFates, Dropped, SetDevice, PeriodEnd;
    var k, d := token.device, w.core.devices[token.device];
    ReportsExactly(cfg, w.io, d.fd, k, view);
    PeriodEnds(d, ReportFates(cfg.net, w.io, view), view);
    var once := DrainThenFlime(cfg.net, w.io, d.fd, k, Report).0;
    var twice := DrainThenFlime(cfg.net, once, d.fd, k, Report).0;
    FailActiveIs(w.(io := once), k, LegacyDevice(d));
    FailActiveIs(w.(io := twice), k, LegacyDevice(d));
    NoSecond(cfg.net, w.io, view);
  }

  lemma PeriodEnds(d: Device, r: Reports, view: AfterView)
    ensures PeriodEnd(d, r, view) ==
              if Reported(r, view) then Inactive(d).(stage := view.next, failed := d.failed || !view.retired)
              else if Left(r, view) then Dropped(LegacyDevice(d)) else Dropped(d)
  {
    LeftIs(d);
  }

  lemma NoSecond(net: Net, io: Io, view: AfterView)
    ensures var r := ReportFates(net, io, view); r.first != Acked || view.withdrawn ==> r.second == Refused
  {
  }

  /**
   * So its stage moves on exactly if both reports went through, and it is unfailed exactly if
   * moreover it was before and its records could be retired.
   */
  lemma PeriodMovesOn(cfg: Config, w: World, token: Token, view: AfterView)
    requires ForRouted(token) && token.device in w.core.devices && ClusterOk(w.io.cluster)
    requires var d := w.core.devices[token.device];
             d.active && token.id != 0 && token.id == d.token && !d.recovering
    ensures var d, e := w.core.devices[token.device], AfterSubmit(cfg, w, token, true, view).core.devices[token.device];
            var r := ReportFates(cfg.net, w.io, view);
            && !e.active && e.token == 0
            && e.stage == (if Reported(r, view) then view.next else if Left(r, view) then Legacy else d.stage)
            && (!e.failed <==> Reported(r, view) && !d.failed && view.retired)
  {
    hide AfterSubmit, ReportFates, ClusterOk, Reported, Left;
    PeriodExactly(cfg, w, token, view);
  }

  // ------------------------------------------------------------------ recovery periods

  /** The end of a recovery whose checkpoint holds is reported; no other is. */
  function RecoveryReport(cfg: Config, w: World, k: Handle, view: AfterView): (Io, Outcome)
    requires k in w.core.devices
  {
    if view.checkpoint then DrainThenFlime(cfg.net, w.io, w.core.devices[k].fd, k, Report) else (w.io, Lost)
  }

  /**
   * The completion of a recovery: reported, the device is back in Detect; answered by a withdrawal it
   * is failed in Legacy; and otherwise it is unfailed, and in Legacy, exactly if it can be drained.
   */
  lemma RecoveryExactly(cfg: Config, w: World, token: Token, view: AfterView)
    requires ForRouted(token) && token.device in w.core.devices && ClusterOk(w.io.cluster)
    requires var d := w.core.devices[token.device];
             d.active && token.id != 0 && token.id == d.token && d.recovering
    ensures var k, d := token.device, w.core.devices[token.device];
            var (reported, sent) := RecoveryReport(cfg, w, k, view);
            var e := AfterSubmit(cfg, w, token, true, view).core.devices[k];
            var left := view.checkpoint && sent != Refused && view.withdrawn;
            var restored := view.checkpoint && sent == Acked && !view.withdrawn;
            var drained := Suppressing(d) && HasNumber(d.nextId)
                           && Clears(cfg.net, reported) && cfg.net(Upcoming(reported)) == Acked;
            && !e.active && e.token == 0 && !e.recovering
            && e.stage == (if restored then Detect else if left || drained then Legacy else d.stage)
            && (!e.failed <==> if restored then !d.failed else !left && drained)
            && (restored ==> !e.early && e.negotiated == d.negotiated)
    ensures var (reported, sent) := RecoveryReport(cfg, w, token.device, view);
            view.checkpoint ==> sent == if Clears(cfg.net, w.io) then cfg.net(Upcoming(w.io)) else Refused
  {
    hide DrainThenFlime, ClusterOk, Clears, AbandonRecovery, FailActive, Dropped, Suppressing;
    var k, d := token.device, w.core.devices[token.device];
    FlimeFate(cfg.net, w.io, d.fd, k, Report);
    var (reported, sent) := RecoveryReport(cfg, w, k, view);
    FailActiveIs(w.(io := reported), k, LegacyDevice(d));
    LeftIs(d);
    AbandonExactly(cfg, w.(io := reported), k);
  }

  lemma AbandonExactly(cfg: Config, w: World, k: Handle)
    requires k in w.core.devices && ClusterOk(w.io.cluster)
    ensures var d := w.core.devices[k];
            var e := AbandonRecovery(cfg, w, k).core.devices[k];
            var drained := Suppressing(d) && HasNumber(d.nextId)
                           && Clears(cfg.net, w.io) && cfg.net(Upcoming(w.io)) == Acked;
            && !e.active && e.token == 0 && !e.recovering
            && (e.failed <==> !drained) && e.stage == (if drained then Legacy else d.stage)
  {
    hide Fallback, ClusterOk, Clears, Suppressing, FailActive, AfterDrain;
    var d := w.core.devices[k];
    var lowered := WithDevice(w, k, d.(active := false));
    LoweredMode(d);
    FallbackExactly(cfg, lowered, k);
    var (w', id) := Fallback(cfg, lowered, k);
    if id.None? {
      FallbackStays(cfg, lowered, k);
      StaysInStage(lowered.core.devices[k]);
      FailActiveIs(w', k, d);
    }
  }

  lemma LoweredMode(d: Device)
    ensures Suppressing(d.(active := false)) == Suppressing(d)
    ensures HasNumber(d.nextId) ==>
              var e := AfterDrain(d.(active := false));
              !e.active && e.token == 0 && !e.recovering && !e.failed && e.stage == Legacy
  {
  }

  lemma StaysInStage(d: Device)
    ensures HasNumber(d.nextId) ==> d.(nextId := d.nextId + 1).stage == d.stage
  {
  }

  // --------------------------------------------------- drained submissions, lifecycles

  /** A submission that went out under a drain's number only gives its reservation back. */
  lemma DrainedCompletionExactly(cfg: Config, w: World, token: Token, ok: bool, view: AfterView)
    requires token.valid && token.fallback && token.device in w.core.devices
    ensures var k, d := token.device, w.core.devices[token.device];
            AfterSubmit(cfg, w, token, ok, view)
            == if d.active && d.token == token.id
               then World(SetDevice(w.core, k, d.(active := false, token := 0, recovering := false,
                                                  failed := d.failed || !ok)), w.io)
               else w
  {
    hide ProtocolAfter;
  }

  /** A lifecycle counts up, over a drained route, and down to zero again; a failed one fails the device. */
  lemma LifecycleExactly(cfg: Config, w: World, k: Handle, ok: bool)
    requires k in w.core.devices && ClusterOk(w.io.cluster)
    ensures var d, e := w.core.devices[k], BeginLifecycle(cfg, w, k).core.devices[k];
            && e.lifecycle == d.lifecycle + 1 && (e.early ==> e.failed)
            && (!d.early ==>
                  BeginLifecycle(cfg, w, k) == World(SetDevice(w.core, k, d.(lifecycle := d.lifecycle + 1)), w.io))
    ensures var d := w.core.devices[k];
            EndLifecycle(w, k, ok) == World(SetDevice(w.core, k,
              d.(lifecycle := if d.lifecycle > 0 then d.lifecycle - 1 else 0, failed := d.failed || !ok)), w.io)
  {
    hide FallbackOrFail, ClusterOk, Clears, Drainable;
    LifecycleKept(cfg, w, k);
  }

  lemma LifecycleKept(cfg: Config, w: World, k: Handle)
    requires k in w.core.devices && ClusterOk(w.io.cluster)
    ensures var (w', ok) := FallbackOrFail(cfg, w, k);
            && w'.core.devices[k].lifecycle == w.core.devices[k].lifecycle
            && (if ok then !w'.core.devices[k].early else w'.core.devices[k].failed)
  {
    hide FallbackOrFail, ClusterOk, Clears, Suppressing, AfterDrain;
    FallbackOrFailExactly(cfg, w, k);
    DrainedParts(w.core.devices[k]);
  }

  /**
   * Descriptors may be retired at once on a device that suppresses nothing, or has neither a route
   * out nor live records; otherwise exactly if the device, unfailed, can be drained first.
   */
  lemma RetirementExactly(cfg: Config, w: World, k: Handle, live: bool)
    requires k in w.core.devices && ClusterOk(w.io.cluster)
    ensures var d := w.core.devices[k];
            var (w', ok) := PrepareRetirement(cfg, w, k, live);
            var owed := Suppressing(d) && (d.early || live);
            && (!owed ==> ok && w' == w)
            && (owed && d.failed ==> !ok && w' == w)
            && (owed && !d.failed ==>
                  && (ok <==> Drainable(d) && Clears(cfg.net, w.io) && cfg.net(Upcoming(w.io)) == Acked)
                  && (if ok then w'.core == SetDevice(w.core, k, AfterDrain(d)) else w'.core.devices[k].failed))
  {
    hide FallbackOrFail, ClusterOk, Clears, AfterDrain;
    FallbackOrFailExactly(cfg, w, k);
  }
}
