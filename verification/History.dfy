/** Closed forms for a command buffer's flags and generation in terms of its history. */
module History {
  import opened GuestTypes
  import opened GuestState
  import opened RegistryOps
  import opened Machine
  import opened Lifecycle

  /** What the first n events of a run meant to buffer c, one change an event. */
  function HistoryOf(cfg: Config, w: World, events: seq<Event>, n: nat, c: Handle): (h: seq<Change>)
    requires n <= |events|
    ensures |h| == n
  {
    if n == 0 then []
    else HistoryOf(cfg, w, events, n - 1, c) + [ChangeOf(Run(cfg, w, events, n - 1).core, events[n - 1], c)]
  }

  function Fold(b: Option<Command>, h: seq<Change>, n: nat): Option<Command>
    requires n <= |h|
  {
    if n == 0 then b else Changed(Fold(b, h, n - 1), h[n - 1])
  }

  /** A change that makes sense for a buffer in this state. */
  predicate Applies(b: Option<Command>, change: Change) {
    match change
    case Untouched => true
    case Born(_, _) => b.None?
    case Closed => b.Some? && b.value.recording
    case _ => b.Some?
  }

  predicate Proper(b: Option<Command>, h: seq<Change>) {
    forall i: nat | i < |h| :: Applies(Fold(b, h, i), h[i])
  }

  lemma {:induction false} FoldKept(b: Option<Command>, h: seq<Change>, change: Change, n: nat)
    requires n <= |h|
    ensures Fold(b, h + [change], n) == Fold(b, h, n)
  {
    if n > 0 { FoldKept(b, h, change, n - 1); }
  }

  lemma ConcerningApplies(core: Core, e: Event, c: Handle)
    ensures Applies(Buffer(core, c), ChangeOf(core, e, c))
  {
    hide Buffer;
  }

  /** The state of a buffer after any run is the fold of its history, and the history is proper. */
  lemma {:induction false} HistoryDecides(cfg: Config, w: World, events: seq<Event>, n: nat, c: Handle)
    requires n <= |events| && Good(w)
    ensures Buffer(Run(cfg, w, events, n).core, c) == Fold(Buffer(w.core, c), HistoryOf(cfg, w, events, n, c), n)
    ensures Proper(Buffer(w.core, c), HistoryOf(cfg, w, events, n, c))
  {
    hide Good, Buffer, Step, ChangeOf, Changed, Applies;
    if n > 0 {
      var before, e, b := Run(cfg, w, events, n - 1), events[n - 1], Buffer(w.core, c);
      HistoryDecides(cfg, w, events, n - 1, c);
      RunGood(cfg, w, events, n - 1);
      StepChanges(cfg, before, e, c);
      ConcerningApplies(before.core, e, c);
      var h, change := HistoryOf(cfg, w, events, n - 1, c), ChangeOf(before.core, e, c);
      forall i: nat | i < n ensures Fold(b, h + [change], i) == Fold(b, h, i) { FoldKept(b, h, change, i); }
    }
  }

  // ------------------------------------------------------------------ closed forms

  /** One past the index of the last change among the first n that touches the buffer; 0 if none does. */
  function LastAt(h: seq<Change>, n: nat): (m: nat)
    requires n <= |h|
    ensures m <= n
  {
    if n == 0 then 0 else if h[n - 1].Untouched? then LastAt(h, n - 1) else n
  }

  function Last(h: seq<Change>, n: nat): Change
    requires n <= |h|
  {
    if LastAt(h, n) == 0 then Untouched else h[LastAt(h, n) - 1]
  }

  /** Begins and resets since the buffer was last registered. */
  function Renewals(h: seq<Change>, n: nat): nat
    requires n <= |h|
  {
    if n == 0 || h[n - 1].Born? then 0
    else Renewals(h, n - 1) + if h[n - 1].Opened? || h[n - 1].Cleaned? then 1 else 0
  }

  lemma {:induction false} LastSteady(b: Option<Command>, h: seq<Change>, n: nat)
    requires n <= |h|
    ensures Fold(b, h, n) == Fold(b, h, LastAt(h, n))
    ensures LastAt(h, n) > 0 ==> !h[LastAt(h, n) - 1].Untouched?
  {
    if n > 0 && h[n - 1].Untouched? { LastSteady(b, h, n - 1); }
  }

  /**
   * A buffer is registered unless nothing happened to it or the last thing was its removal; it is
   * recording exactly after a begin, and executable exactly after an end.
   */
  lemma FlagsLaw(h: seq<Change>, n: nat)
    requires n <= |h| && Proper(None, h)
    ensures var b, last := Fold(None, h, n), Last(h, n);
            && (b.Some? <==> !last.Untouched? && !last.Gone?)
            && (b.Some? ==> (b.value.recording <==> last.Opened?) && (b.value.executable <==> last.Closed?))
  {
    LastSteady(None, h, n);
    var m := LastAt(h, n);
    if m > 0 { assert Applies(Fold(None, h, m - 1), h[m - 1]); }
  }

  /** Executable buffers are those whose last change is an end, and that end closes a begin. */
  lemma ExecutableLaw(h: seq<Change>, n: nat)
    requires n <= |h| && Proper(None, h)
    ensures Last(h, n).Closed? ==> Last(h, LastAt(h, n) - 1).Opened?
  {
    LastSteady(None, h, n);
    var m := LastAt(h, n);
    if m > 0 && h[m - 1].Closed? {
      assert Applies(Fold(None, h, m - 1), h[m - 1]);
      FlagsLaw(h, m - 1);
    }
  }

  const CYCLE: nat := 0xFFFF_FFFF_FFFF_FFFF

  lemma NextCycles(n: nat)
    ensures NextGeneration(1 + n % CYCLE) == 1 + (n + 1) % CYCLE
  {
  }

  /** The generation is one plus the number of begins and resets, modulo 2^64 - 1; it is never zero. */
  lemma {:induction false} GenerationLaw(h: seq<Change>, n: nat)
    requires n <= |h| && Proper(None, h)
    ensures Fold(None, h, n).Some? ==> Fold(None, h, n).value.generation == 1 + Renewals(h, n) % CYCLE
  {
    if n > 0 {
      GenerationLaw(h, n - 1);
      assert Applies(Fold(None, h, n - 1), h[n - 1]);
      NextCycles(Renewals(h, n - 1));
    }
  }

  /**
   * The generations of a buffer at two points of its history agree exactly when the begins and
   * resets since the registration current at each point are equally many, modulo 2^64 - 1.  So a
   * captured pair matches again at these points and no others, whatever happened in between.
   */
  lemma MatchesExactly(h: seq<Change>, i: nat, j: nat)
    requires i <= j <= |h| && Proper(None, h)
    requires Fold(None, h, i).Some? && Fold(None, h, j).Some?
    ensures var was, now := Fold(None, h, i).value, Fold(None, h, j).value;
            was.generation == now.generation <==> Renewals(h, i) % CYCLE == Renewals(h, j) % CYCLE
  {
    hide Proper, Fold, Renewals;
    GenerationLaw(h, i);
    GenerationLaw(h, j);
  }

  /** The same between any two points of any run of the whole transport. */
  lemma PairMatches(cfg: Config, events: seq<Event>, i: nat, j: nat, c: Handle)
    requires i <= j <= |events|
    requires Buffer(Run(cfg, INITIAL_WORLD, events, i).core, c).Some?
    requires Buffer(Run(cfg, INITIAL_WORLD, events, j).core, c).Some?
    ensures var was, now := Buffer(Run(cfg, INITIAL_WORLD, events, i).core, c).value,
                            Buffer(Run(cfg, INITIAL_WORLD, events, j).core, c).value;
            var h, h' := HistoryOf(cfg, INITIAL_WORLD, events, i, c), HistoryOf(cfg, INITIAL_WORLD, events, j, c);
            was.generation == now.generation <==> Renewals(h, i) % CYCLE == Renewals(h', j) % CYCLE
  {
    hide Good, Buffer, Run, Proper, Fold, Renewals, HistoryOf;
    InitialGood();
    NoBuffer(c);
    HistoryDecides(cfg, INITIAL_WORLD, events, i, c);
    HistoryDecides(cfg, INITIAL_WORLD, events, j, c);
    GenerationLaw(HistoryOf(cfg, INITIAL_WORLD, events, i, c), i);
    GenerationLaw(HistoryOf(cfg, INITIAL_WORLD, events, j, c), j);
  }

  lemma NoBuffer(c: Handle)
    ensures Buffer(INITIAL_WORLD.core, c) == None
  {
  }

  lemma {:induction false} RenewalsGrow(h: seq<Change>, i: nat, j: nat)
    requires i <= j <= |h| && forall x | i <= x < j :: !h[x].Born?
    ensures Renewals(h, j) >= Renewals(h, i)
    decreases j
  {
    if i < j { RenewalsGrow(h, i, j - 1); }
  }

  lemma SameResidue(a: nat, m: nat)
    ensures a % CYCLE == (a + m) % CYCLE <==> m % CYCLE == 0
  {
    var ra, qa, rm, qm := a % CYCLE, a / CYCLE, m % CYCLE, m / CYCLE;
    assert a + m == (qa + qm) * CYCLE + (ra + rm);
    if ra + rm < CYCLE {
      Residue(a + m, qa + qm, ra + rm);
    } else {
      Residue(a + m, qa + qm + 1, ra + rm - CYCLE);
    }
  }

  lemma Residue(x: nat, q: nat, r: nat)
    requires x == q * CYCLE + r && r < CYCLE
    ensures x % CYCLE == r
  {
  }

  /**
   * While the buffer stays registered, a captured pair matches again exactly when the begins and
   * resets in between are a multiple of 2^64 - 1; in particular not after 1 to 2^64 - 2 of them.
   */
  lemma MatchesWithoutRebirth(h: seq<Change>, i: nat, j: nat)
    requires i <= j <= |h| && Proper(None, h)
    requires Fold(None, h, i).Some? && Fold(None, h, j).Some? && forall x | i <= x < j :: !h[x].Born?
    ensures var m := Renewals(h, j) - Renewals(h, i);
            && m >= 0
            && (Fold(None, h, i).value.generation == Fold(None, h, j).value.generation <==> m % CYCLE == 0)
  {
    hide Proper, Fold, Renewals;
    MatchesExactly(h, i, j);
    RenewalsGrow(h, i, j);
    SameResidue(Renewals(h, i), Renewals(h, j) - Renewals(h, i));
  }

  /**
   * A handle just registered again matches exactly the pairs captured from its earlier lives after
   * a multiple of 2^64 - 1 begins and resets, so every pair captured before the first of them.
   */
  lemma RebornMatches(h: seq<Change>, i: nat, j: nat)
    requires i < j <= |h| && Proper(None, h) && h[j - 1].Born? && Fold(None, h, i).Some?
    ensures Fold(None, h, j).Some?
    ensures Fold(None, h, i).value.generation == Fold(None, h, j).value.generation <==> Renewals(h, i) % CYCLE == 0
  {
    MatchesExactly(h, i, j);
    hide Proper;
  }

  lemma Extended(h: seq<Change>, change: Change)
    requires Proper(None, h) && Applies(Fold(None, h, |h|), change)
    ensures Proper(None, h + [change])
    ensures Fold(None, h + [change], |h| + 1) == Changed(Fold(None, h, |h|), change)
    ensures Renewals(h + [change], |h| + 1)
         == if change.Born? then 0 else Renewals(h, |h|) + if change.Opened? || change.Cleaned? then 1 else 0
  {
    hide Applies, Changed;
    var h' := h + [change];
    forall i: nat | i < |h'| ensures Applies(Fold(None, h', i), h'[i]) { FoldKept(None, h, change, i); }
    FoldKept(None, h, change, |h|);
    RenewalsKept(h, change, |h|);
  }

  lemma {:induction false} RenewalsKept(h: seq<Change>, change: Change, n: nat)
    requires n <= |h|
    ensures Renewals(h + [change], n) == Renewals(h, n)
  {
    if n > 0 { RenewalsKept(h, change, n - 1); }
  }

  /** A buffer freed, registered again and reset r times. */
  function Reborn(h: seq<Change>, k: Handle, pool: Handle, r: nat): (h': seq<Change>)
    ensures |h'| == |h| + 2 + r && h <= h'
  {
    if r == 0 then h + [Gone] + [Born(k, pool)] else Reborn(h, k, pool, r - 1) + [Cleaned]
  }

  lemma {:induction false} RebornProper(h: seq<Change>, k: Handle, pool: Handle, r: nat)
    requires Proper(None, h) && Fold(None, h, |h|).Some?
    ensures var h' := Reborn(h, k, pool, r);
            && Proper(None, h') && Fold(None, h', |h'|).Some?
            && Fold(None, h', |h|) == Fold(None, h, |h|)
            && Renewals(h', |h|) == Renewals(h, |h|) && Renewals(h', |h'|) == r
  {
    hide Proper, Fold, Renewals;
    if r == 0 {
      Extended(h, Gone);
      Extended(h + [Gone], Born(k, pool));
      FoldKept(None, h, Gone, |h|);
      FoldKept(None, h + [Gone], Born(k, pool), |h|);
      RenewalsKept(h, Gone, |h|);
      RenewalsKept(h + [Gone], Born(k, pool), |h|);
    } else {
      var h' := Reborn(h, k, pool, r - 1);
      RebornProper(h, k, pool, r - 1);
      Extended(h', Cleaned);
      FoldKept(None, h', Cleaned, |h|);
      RenewalsKept(h', Cleaned, |h|);
    }
  }

  /**
   * A captured pair never stays stale for good: freeing the buffer, registering it again and
   * resetting it r times brings the pair back exactly for those r that agree with the begins and
   * resets before the capture, modulo 2^64 - 1.
   */
  lemma StaleReturns(h: seq<Change>, k: Handle, pool: Handle, r: nat)
    requires Proper(None, h) && Fold(None, h, |h|).Some?
    ensures var h' := Reborn(h, k, pool, r);
            && Proper(None, h') && Fold(None, h', |h'|).Some?
            && var was, now := Fold(None, h, |h|).value, Fold(None, h', |h'|).value;
               (now.generation == was.generation <==> r % CYCLE == Renewals(h, |h|) % CYCLE)
  {
    hide Proper, Fold, Renewals, Reborn;
    RebornProper(h, k, pool, r);
    MatchesExactly(Reborn(h, k, pool, r), |h|, |h| + 2 + r);
  }

  /** The shortest case: a buffer never begun is freed and registered again. */
  lemma RebirthMatches(k: Handle, pool: Handle)
    ensures var h := [Born(k, pool), Gone, Born(k, pool)];
            Proper(None, h) && Fold(None, h, 1).Some? && Fold(None, h, 3).Some?
            && Fold(None, h, 1).value.generation == Fold(None, h, 3).value.generation
  {
    var h := [Born(k, pool)];
    Extended([], Born(k, pool));
    assert [] + h == h;
    StaleReturns(h, k, pool, 0);
    assert Reborn(h, k, pool, 0) == [Born(k, pool), Gone, Born(k, pool)];
  }
}
