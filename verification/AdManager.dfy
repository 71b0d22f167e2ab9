/** The client-side ad insertion object of a DASH stream (PrivateCDAIObjectMPD): admission of ads to
    breaks, their placement over MPD refreshes, pruning, and the playback lookup. Downloads are
    given: a fulfilled ad arrives with its duration. */
module AdManager {
  import opened AdPlacement
  import opened AdRuns
  import opened AdLookup

  /** Which break is being placed; curAdIdx is -1 when none is. */
  datatype Placement = Placement(pendingAdbrkId: string, openPeriodId: string, curEndNumber: nat, curAdIdx: int,
                                 adNextOffset: nat)

  const IDLE := Placement("", "", 0, -1, 0)

  const NO_LOG := Log(map[], 0, 0, false, 0, [], map[], {})

  datatype Manager = Manager(breaks: map<string, AdBreak>, periods: map<string, PeriodData>, placement: Placement,
                             log: Log)
  {
    /** Some ad is waiting for its placement. */
    predicate Active() {
      placement.curAdIdx != -1 && placement.pendingAdbrkId != "" && placement.pendingAdbrkId in breaks
    }

    function Current(): Placing
      requires Active() && placement.curAdIdx >= -1
    {
      Placing(breaks[placement.pendingAdbrkId], periods, placement.pendingAdbrkId, placement.openPeriodId,
              placement.curEndNumber, placement.curAdIdx, placement.adNextOffset, log)
    }

    function With(s: Placing): Manager {
      Manager(breaks[s.breakId := s.brk], s.periods,
              Placement(s.breakId, s.openPeriodId, s.curEndNumber, s.curAdIdx, s.adNextOffset), s.log)
    }

    function Data(id: string): PeriodData {
      if id in periods then periods[id] else NO_PERIOD_DATA
    }
  }

  // ----- The operations ------------------------------------------------------------------------

  /** A place holder for a break that is announced. */
  function Announce(m: Manager, periodId: string, brkDuration: nat): Manager {
    if periodId in m.breaks then m
    else m.(breaks := m.breaks[periodId := AdBreak(brkDuration, [], "", 0, 0, false)],
            periods := m.periods[periodId := m.Data(periodId).(adBreakId := periodId)])
  }

  /** An ad is admitted to a break that has space left. */
  predicate Admits(m: Manager, periodId: string) {
    periodId in m.breaks && m.breaks[periodId].brkDuration > m.breaks[periodId].adsDuration
  }

  /** The ads of a break never fill more than the break, and their total is accounted. */
  ghost predicate Budget(b: AdBreak) {
    b.adsDuration == Sum(b.ads, |b.ads|) <= b.brkDuration
  }

  /** The duration an ad gets: trimmed to the space available. */
  function Trimmed(b: AdBreak, duration: nat): nat
    requires b.adsDuration <= b.brkDuration
  {
    if b.brkDuration - b.adsDuration < duration then b.brkDuration - b.adsDuration else duration
  }

  /** A period whose index, if it has one, says only what was playing at its beginning, and that is filed
      under no other break. */
  predicate Unclaimed(id: string, data: PeriodData) {
    data.offset2Ad.Keys <= {0} && (data.adBreakId == id || (data.adBreakId == "" && data.duration == 0))
  }

  /** The history of a break that starts in the given period, all content of which will be counted again. */
  function NewLog(periodId: string, data: PeriodData): Log {
    Log(map[periodId := 0], 0, 0, false, 0, [0], map[periodId := data.duration],
        if Unclaimed(periodId, data) then {periodId} else {})
  }

  /** An ad of the given duration joins its break; the first ad of a break starts its placement. */
  function Fulfil(m: Manager, periodId: string, duration: nat): Manager
    requires periodId in m.breaks ==> m.breaks[periodId].adsDuration <= m.breaks[periodId].brkDuration
  {
    if periodId !in m.breaks then m
    else
      var b := m.breaks[periodId];
      var d := Trimmed(b, duration);
      if b.ads == [] then
        Manager(m.breaks[periodId := Append(b, AdNode(d, false, periodId, 0))],
                if periodId in m.periods
                then m.periods[periodId := WithStart(m.periods[periodId], 0, 0)]
                else m.periods,
                Placement(periodId, periodId, 0, 0, 0), NewLog(periodId, m.Data(periodId)))
      else m.(breaks := m.breaks[periodId := Append(b, AdNode(d, false, "", -1))])
  }

  /** One MPD refresh; a placement that is over is forgotten. */
  function Place(m: Manager, mpd: seq<Period>): Manager
    requires Steady(m)
  {
    if !m.Active() then m
    else
      var (s, over) := Refresh(m.Current(), mpd);
      if over then m.With(s).(placement := IDLE) else m.With(s)
  }

  /** Only the periods of the new MPD are kept, and only their breaks and the pending and the playing
      one. */
  function Prune(m: Manager, newPeriodIds: seq<string>, playing: string): Manager {
    var kept := {m.placement.pendingAdbrkId, playing};
    m.(breaks := map id | id in m.breaks && (id in kept || id in newPeriodIds) :: m.breaks[id],
       periods := map id | id in m.periods && id in newPeriodIds :: m.periods[id])
  }

  /** What pruning leaves: the playing and the pending break and every listed one, and every listed period, as
      they were; an unlisted period goes, and so does an unlisted break that is neither playing nor pending. */
  lemma {:induction false} PruneKeeps(m: Manager, newPeriodIds: seq<string>, playing: string, id: string)
    ensures var r := Prune(m, newPeriodIds, playing);
            && r.placement == m.placement && r.log == m.log
            && (id in r.breaks <==> id in m.breaks &&
                                    (id == playing || id == m.placement.pendingAdbrkId || id in newPeriodIds))
            && (id in r.breaks ==> r.breaks[id] == m.breaks[id])
            && (id in r.periods <==> id in m.periods && id in newPeriodIds)
            && (id in r.periods ==> r.periods[id] == m.periods[id])
  {
  }

  /** The placement cursor is on an ad of the pending break, inside it, or past its last ad while the
      break's end is adjusted. */
  predicate Steady(m: Manager) {
    && m.placement.curAdIdx >= -1
    && (m.Active() ==> m.Current().Done() || Ready(m.Current()))
  }

  // ----- Every reachable state -----------------------------------------------------------------

  datatype Op = Announced(periodId: string, brkDuration: nat) | Fulfilled(periodId: string, duration: nat)
              | Refreshed(mpd: seq<Period>) | Pruned(newPeriodIds: seq<string>, playing: string)

  /** What every reachable state keeps: every break within its budget, no end to settle for one without
      ads, the pending break present, and the cursor inside its ad (so that no unsigned subtraction wraps). */
  ghost predicate Sound(m: Manager) {
    && Steady(m) && (m.placement.curAdIdx != -1 ==> m.placement.pendingAdbrkId in m.breaks)
    && forall id :: id in m.breaks ==> Budget(m.breaks[id]) &&
                                       (m.breaks[id].ads == [] ==> !m.breaks[id].adjustEndPeriodOffset)
  }

  ghost function Apply(m: Manager, op: Op): Manager
    requires Sound(m)
  {
    match op
    case Announced(periodId, brkDuration) => Announce(m, periodId, brkDuration)
    case Fulfilled(periodId, duration) => Fulfil(m, periodId, duration)
    case Refreshed(mpd) => Place(m, mpd)
    case Pruned(newPeriodIds, playing) => Prune(m, newPeriodIds, playing)
  }

  lemma {:induction false} AppendBudget(b: AdBreak, ad: AdNode)
    requires Budget(b) && b.adsDuration + ad.duration <= b.brkDuration
    ensures Budget(Append(b, ad))
  {
    SumSame(b.ads, Append(b, ad).ads, |b.ads|);
  }

  /** Nothing a placement does changes the budget of its break. */
  ghost predicate SameBudget(s: Placing, r: Placing) {
    SameAds(s.Ads(), r.Ads()) && r.brk.adsDuration == s.brk.adsDuration && r.brk.brkDuration == s.brk.brkDuration
  }

  lemma {:induction false} SameBudgetKeeps(s: Placing, r: Placing)
    requires SameBudget(s, r) && Budget(s.brk)
    ensures Budget(r.brk)
  {
    SumSame(s.Ads(), r.Ads(), |s.Ads()|);
  }

  lemma {:induction false} FillBudget(s: Placing, delta: nat)
    requires Ready(s) && delta <= s.Data(s.openPeriodId).duration
    ensures SameBudget(s, Fill(s, delta))
    decreases |s.Ads()| - s.curAdIdx
  {
    if delta > 0 {
      var step := FillStep(s, delta);
      assert SameBudget(s, step.next);
      if step.more {
        hide FillStep;
        FillBudget(step.next, step.rest);
      }
    }
  }

  lemma {:induction false} ReceiveBudget(s: Placing, p: Period)
    requires Ready(s)
    ensures SameBudget(s, Receive(s, p))
  {
    hide Fill, NewContent;
    var (delta, endNumber) := NewContent(p, 0, s.curEndNumber);
    FillBudget(Count(s, delta, endNumber), delta);
  }

  lemma {:induction false} SameBudgetChain(s: Placing, u: Placing, r: Placing)
    requires SameBudget(s, u) && SameBudget(u, r)
    ensures SameBudget(s, r)
  {
  }

  lemma {:induction false} SameBudgetOpen(s: Placing, id: string)
    requires Ready(s)
    ensures SameBudget(s, s) && SameBudget(s, Open(s, id)) && Ready(Open(s, id))
  {
  }

  lemma {:induction false} DoneBudget(s: Placing)
    ensures SameBudget(s, s)
  {
  }

  lemma {:induction false} PlaceOverBudget(s: Placing, mpd: seq<Period>, i: nat, found: bool)
    requires i <= |mpd| && (s.Done() || Ready(s))
    ensures SameBudget(s, PlaceOver(s, mpd, i, found))
    decreases |mpd| - i
  {
    hide Receive, Open, Ready, SameBudget;
    if i == |mpd| || s.Done() {
      DoneBudget(s);
    } else {
      SameBudgetOpen(s, mpd[i].id);
      if mpd[i].id == s.openPeriodId || (found && mpd[i].duration > 0) {
        var u := if mpd[i].id == s.openPeriodId then s else Open(s, mpd[i].id);
        var r := Receive(u, mpd[i]);
        ReceiveBudget(u, mpd[i]);
        PlaceOverBudget(r, mpd, i + 1, true);
        SameBudgetChain(s, u, r);
        SameBudgetChain(s, r, PlaceOver(r, mpd, i + 1, true));
      } else {
        PlaceOverBudget(s, mpd, i + 1, found);
      }
    }
  }

  lemma {:induction false} PlaceSound(m: Manager, mpd: seq<Period>)
    requires Sound(m)
    ensures Sound(Place(m, mpd))
  {
    if m.Active() {
      var s := m.Current();
      var u := PlaceOver(s, mpd, 0, false);
      PlaceOverBudget(s, mpd, 0, false);
      BreakIdKept(s, mpd, 0, false);
      hide PlaceOver;
      var r := Refresh(s, mpd).0;
      assert SameBudget(s, r) && r.breakId == s.breakId;
      SameBudgetKeeps(s, r);
    }
  }

  /** Every operation keeps every break within its budget and the cursor inside its ad. */
  lemma {:induction false} ApplySound(m: Manager, op: Op)
    requires Sound(m)
    ensures Sound(Apply(m, op))
  {
    match op
    case Announced(periodId, brkDuration) =>
    case Fulfilled(periodId, duration) =>
      if periodId in m.breaks {
        var b := m.breaks[periodId];
        var first := b.ads == [];
        AppendBudget(b, AdNode(Trimmed(b, duration), false, if first then periodId else "", if first then 0 else -1));
      }
    case Refreshed(mpd) => PlaceSound(m, mpd);
    case Pruned(newPeriodIds, playing) =>
  }

  /** The ads of a break start one after another: ad k is told to start where the ads before it end. An ad
      that does not fit gets all the space left. */
  lemma {:induction false} ResolvedStart(m: Manager, periodId: string, duration: nat)
    requires Sound(m) && periodId in m.breaks
    ensures var b, b' := m.breaks[periodId], Fulfil(m, periodId, duration).breaks[periodId];
            && |b'.ads| == |b.ads| + 1 && b'.ads[..|b.ads|] == b.ads
            && b.adsDuration == Sum(b'.ads, |b.ads|) && b.adsDuration + b'.ads[|b.ads|].duration <= b.brkDuration
            && (b'.ads[|b.ads|].duration == duration <==> b.adsDuration + duration <= b.brkDuration)
            && (b'.ads[|b.ads|].duration != duration ==> b'.adsDuration == b'.brkDuration)
            && b'.adsDuration == b.adsDuration + b'.ads[|b.ads|].duration && b'.brkDuration == b.brkDuration
  {
    SumSame(m.breaks[periodId].ads, Fulfil(m, periodId, duration).breaks[periodId].ads, |m.breaks[periodId].ads|);
  }

  /** An ad is admitted to exactly the breaks that have a place for it, however short. */
  lemma {:induction false} AdmitsSpace(m: Manager, periodId: string, duration: nat)
    requires Sound(m) && duration > 0
    ensures Admits(m, periodId) <==>
              periodId in m.breaks &&
              var ads := Fulfil(m, periodId, duration).breaks[periodId].ads; ads[|ads| - 1].duration > 0
  {
  }

  /** A refresh forgets the placement exactly when the break is complete and its end is settled. */
  lemma {:induction false} PlaceForgets(m: Manager, mpd: seq<Period>)
    requires Sound(m) && m.Active()
    ensures var w, r := PlaceOver(m.Current(), mpd, 0, false), Place(m, mpd); var id := m.placement.pendingAdbrkId;
            && id in r.breaks
            && (r.placement == IDLE <==> w.Done() && !r.breaks[id].adjustEndPeriodOffset)
            && (r.placement != IDLE ==> r.placement.pendingAdbrkId == id && r.Active())
  {
    hide PlaceOver;
    BreakIdKept(m.Current(), mpd, 0, false);
  }

  // ----- Ads joining while the break is placed, pruning, and the ledger ------------------------

  /** The first ad of a break leaves the placement in a state from which the run theorems apply, whatever
      content its period holds. */
  lemma {:induction false} FirstAdReady(m: Manager, periodId: string, duration: nat)
    requires Sound(m) && periodId in m.breaks && m.breaks[periodId].ads == [] && periodId != ""
    ensures var r := Fulfil(m, periodId, duration);
            && r.Active() && Ledger(r.Current(), 0) && Punctual(r.Current()) && Ready(r.Current())
            && periodId in r.log.base && r.Current().Held(periodId) == m.Data(periodId).duration
  {
    var s := Fulfil(m, periodId, duration).Current();
    assert Placed(s, 0);
  }

  /** The reverse index starts with the break: its first ad is found, and in a period that no other break
      has claimed nothing else. */
  lemma {:induction false} FirstAdIndexed(m: Manager, periodId: string, duration: nat)
    requires Sound(m) && periodId in m.breaks && m.breaks[periodId].ads == [] && periodId != ""
    ensures var r := Fulfil(m, periodId, duration); r.Active() && Catalog(r.Current(), 0)
  {
    var s := Fulfil(m, periodId, duration).Current();
    if periodId in m.periods {
      assert 0 in s.Data(periodId).offset2Ad;
      assert Unclaimed(periodId, m.Data(periodId)) ==> s.Data(periodId).offset2Ad == map[0 := AdOnPeriod(0, 0)];
    }
    assert Listed(s, 0);
  }

  /** The placement of a break after its first two ads were fulfilled. */
  ghost function TwoFulfilled(m: Manager, periodId: string, first: nat, second: nat): (s: Placing)
    requires Sound(m) && periodId in m.breaks && m.breaks[periodId].ads == [] && periodId != ""
    ensures s.Done() || Ready(s)
  {
    ApplySound(m, Fulfilled(periodId, first));
    ApplySound(Fulfil(m, periodId, first), Fulfilled(periodId, second));
    Fulfil(Fulfil(m, periodId, first), periodId, second).Current()
  }

  /** With its first two ads a break is ready for the run theorems. */
  lemma {:induction false} SecondAdReady(m: Manager, periodId: string, first: nat, second: nat)
    requires Sound(m) && periodId in m.breaks && m.breaks[periodId].ads == [] && periodId != ""
    ensures var s := TwoFulfilled(m, periodId, first, second);
            && Ledger(s, 0) && Punctual(s) && |s.Ads()| == 2 && s.Ads()[0].basePeriodId == periodId
            && periodId in s.log.base && s.Held(periodId) == m.Data(periodId).duration
  {
    hide Ledger, Punctual;
    FirstAdReady(m, periodId, first);
    var u := Fulfil(m, periodId, first);
    ApplySound(m, Fulfilled(periodId, first));
    AppendKeeps(u.Current(), AdNode(Trimmed(u.breaks[periodId], second), false, "", -1));
  }

  /** Over every run of refreshes after its first two ads were fulfilled, the second ad of a break starts late
      by what the period where it starts held already when the break opened it: for the break's own period,
      by the content that was there when the first ad arrived. So the two are contiguous if and only if that
      period held none. */
  lemma {:induction false} SecondAdIsLate(m: Manager, periodId: string, first: nat, second: nat, mpds: seq<seq<Period>>)
    requires Sound(m) && periodId in m.breaks && m.breaks[periodId].ads == [] && periodId != ""
    requires var s := TwoFulfilled(m, periodId, first, second); AllFit(s, mpds) && 1 < Started(Run(s, mpds))
    ensures var s := TwoFulfilled(m, periodId, first, second); var r := Run(s, mpds);
            && 1 < |r.Ads()| == |s.Ads()| && r.Ads()[0].basePeriodId in r.log.base &&
                 r.Ads()[1].basePeriodId in r.log.base
            && var id := r.Ads()[1].basePeriodId;
               && StartOf(r, 1) == StartOf(r, 0) + s.Ads()[0].duration + r.Held(id)
               && (StartOf(r, 1) == StartOf(r, 0) + s.Ads()[0].duration <==> r.Held(id) == 0)
               && (id == periodId ==> r.Held(id) == m.Data(periodId).duration)
  {
    hide Run, AllFit, Ledger, Punctual, TwoFulfilled;
    SecondAdReady(m, periodId, first, second);
    var s := TwoFulfilled(m, periodId, first, second);
    AdsAreContiguous(s, mpds, 0);
    RunLaid(s, mpds);
  }

  /** An ad joining the break being placed keeps the index of the ads before it. */
  lemma {:induction false} AppendCatalog(s: Placing, ad: AdNode)
    requires Ledger(s, 0) && Catalog(s, 0) && ad.basePeriodId == ""
    ensures Catalog(Joined(s, ad), 0)
  {
    var u := Joined(s, ad);
    assert Started(u) == Started(s);
    forall k | 0 <= k < Started(u) && k < |u.Ads()| ensures Listed(u, k) {
      assert Listed(s, k);
    }
    forall id, key | id in u.log.blank && id in u.periods && key in u.periods[id].offset2Ad ensures KeyOk(u, id, key) {
      assert KeyOk(s, id, key);
      forall j ensures StartsIn(u, j, id) <==> StartsIn(s, j, id) {
      }
    }
    forall id | id in u.log.blank && id in u.periods && 0 in u.periods[id].offset2Ad ensures Entered(u, id, 0) {
      assert Entered(s, id, 0);
      forall j ensures StartsIn(u, j, id) <==> StartsIn(s, j, id) {
      }
    }
    forall j ensures StartsIn(u, j, s.openPeriodId) <==> StartsIn(s, j, s.openPeriodId) {
    }
  }

  /** Changing period data other than the open period's duration keeps the ledger. */
  lemma {:induction false} PeriodsKeep(s: Placing, u: Placing)
    requires Ledger(s, 0) && u == s.(periods := u.periods)
    requires u.Data(u.openPeriodId).duration == s.Data(s.openPeriodId).duration
    ensures Ledger(u, 0) && (Punctual(s) ==> Punctual(u))
  {
    forall k | 0 <= k < Started(u) ensures Placed(u, k) {
      assert Placed(s, k);
    }
  }

  /** The ledger of the break being placed holds. */
  ghost predicate Kept(m: Manager) {
    Sound(m) && (m.Active() ==> Ledger(m.Current(), 0))
  }

  /** What the stream owes: a break has a name, an MPD fits the placement it arrives in, and pruning keeps
      the open period. */
  ghost predicate Fair(m: Manager, op: Op)
    requires Sound(m)
  {
    match op
    case Announced(_, _) => true
    case Fulfilled(periodId, _) =>
      periodId in m.breaks && m.breaks[periodId].ads == [] ==> periodId != ""
    case Refreshed(mpd) => m.Active() ==> Fits(m.Current(), mpd, 0, false)
    case Pruned(newPeriodIds, _) => m.Active() ==> m.placement.openPeriodId in newPeriodIds
  }

  lemma {:induction false} FulfilKept(m: Manager, periodId: string, duration: nat)
    requires Kept(m) && Fair(m, Fulfilled(periodId, duration))
    ensures Fulfil(m, periodId, duration).Active() ==> Ledger(Fulfil(m, periodId, duration).Current(), 0)
  {
    var r := Fulfil(m, periodId, duration);
    if periodId in m.breaks {
      var b := m.breaks[periodId];
      if b.ads == [] {
        FirstAdReady(m, periodId, duration);
      } else if m.Active() && periodId == m.placement.pendingAdbrkId {
        AppendKeeps(m.Current(), AdNode(Trimmed(b, duration), false, "", -1));
      }
    }
  }

  /** A placement that goes on after a refresh is what the loop over the periods left. */
  lemma {:induction false} PlacedMeans(m: Manager, mpd: seq<Period>)
    requires Sound(m) && m.Active()
    ensures Place(m, mpd).Active() ==> Place(m, mpd).Current() == PlaceOver(m.Current(), mpd, 0, false)
  {
    hide PlaceOver;
    BreakIdKept(m.Current(), mpd, 0, false);
  }

  lemma {:induction false} PlaceKept(m: Manager, mpd: seq<Period>)
    requires Kept(m) && Fair(m, Refreshed(mpd))
    ensures Place(m, mpd).Active() ==> Ledger(Place(m, mpd).Current(), 0)
  {
    hide PlaceOver, Ledger, Fits, AdjustEnd, SameAds, Punctual, Budget;
    if m.Active() {
      var s := m.Current();
      var u := PlaceOver(s, mpd, 0, false);
      PlaceOverKeeps(s, mpd, 0, false);
      FilledMeans(s, u);
      PlacedMeans(m, mpd);
    }
  }

  /** Whatever is announced, fulfilled, refreshed or pruned, and in whatever order, the content
      received for the pending break is accounted for and each of its ads starts where the ones
      before it end, late only by what was discarded before its turn. */
  lemma {:induction false} ApplyKept(m: Manager, op: Op)
    requires Kept(m) && Fair(m, op)
    ensures Kept(Apply(m, op))
  {
    ApplySound(m, op);
    match op
    case Announced(periodId, brkDuration) =>
      if m.Active() {
        PeriodsKeep(m.Current(), Announce(m, periodId, brkDuration).Current());
      }
    case Fulfilled(periodId, duration) => FulfilKept(m, periodId, duration);
    case Refreshed(mpd) => PlaceKept(m, mpd);
    case Pruned(newPeriodIds, playing) =>
      if m.Active() {
        PeriodsKeep(m.Current(), Prune(m, newPeriodIds, playing).Current());
      }
  }

  const START := Manager(map[], map[], IDLE, NO_LOG)

  ghost function After(m: Manager, ops: seq<Op>): (r: Manager)
    requires Sound(m)
    ensures Sound(r)
    decreases |ops|
  {
    if ops == [] then m else (ApplySound(m, ops[0]); After(Apply(m, ops[0]), ops[1..]))
  }

  ghost predicate AllFair(m: Manager, ops: seq<Op>)
    requires Sound(m)
    decreases |ops|
  {
    ops == [] || (ApplySound(m, ops[0]); Fair(m, ops[0]) && AllFair(Apply(m, ops[0]), ops[1..]))
  }

  /** So in every state reached from the start: each break's ads are accounted and fit into it, and the
      cursor is inside its ad. */
  lemma {:induction false} ReachedSound(ops: seq<Op>)
    ensures Sound(START) && Sound(After(START, ops))
  {
  }

  lemma {:induction false} RunKept(m: Manager, ops: seq<Op>)
    requires Kept(m) && AllFair(m, ops)
    ensures Kept(After(m, ops))
    decreases |ops|
  {
    if ops != [] {
      hide Fair, Apply, Kept, Sound;
      ApplyKept(m, ops[0]);
      RunKept(Apply(m, ops[0]), ops[1..]);
    }
  }

  /** From the start, over every fair run. */
  lemma {:induction false} ReachedKept(ops: seq<Op>)
    requires AllFair(START, ops)
    ensures Kept(After(START, ops))
  {
    RunKept(START, ops);
  }
}
