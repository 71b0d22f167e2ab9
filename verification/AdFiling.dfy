/** Under which break a placed ad is found: the answer of the playback lookup is a break and an ad of
    it, and a period that was announced as a break of its own answers with its own break. */
module AdFiling {
  import opened AdPlacement
  import opened AdRuns
  import opened AdLookup
  import opened AdManager

  // ----- What placement does to the periods ----------------------------------------------------

  /** A period keeps its break, with its index not emptied, or is tied to the break being placed. */
  predicate Refiled(a: PeriodData, b: PeriodData, breakId: string) {
    || (b.adBreakId == a.adBreakId && (a.offset2Ad != map[] ==> b.offset2Ad != map[]))
    || (a.adBreakId == "" && b.adBreakId == breakId && b.offset2Ad != map[])
  }

  ghost predicate Filed(s: Placing, r: Placing) {
    r.breakId == s.breakId && forall id :: Refiled(s.Data(id), r.Data(id), s.breakId)
  }

  /** The same, except for periods that the end adjustment resets. */
  ghost predicate RunFiled(s: Placing, r: Placing) {
    r.breakId == s.breakId && forall id :: Refiled(s.Data(id), r.Data(id), s.breakId) || r.Data(id) == NO_PERIOD_DATA
  }

  lemma {:induction false} FiledChain(s: Placing, u: Placing, r: Placing)
    requires Filed(s, u)
    ensures Filed(u, r) ==> Filed(s, r)
    ensures RunFiled(u, r) ==> RunFiled(s, r)
  {
    if Filed(u, r) {
      forall id ensures Refiled(s.Data(id), r.Data(id), s.breakId) {
        assert Refiled(s.Data(id), u.Data(id), s.breakId) && Refiled(u.Data(id), r.Data(id), s.breakId);
      }
    }
    if RunFiled(u, r) {
      forall id ensures Refiled(s.Data(id), r.Data(id), s.breakId) || r.Data(id) == NO_PERIOD_DATA {
        assert Refiled(s.Data(id), u.Data(id), s.breakId);
      }
    }
  }

  lemma {:induction false} StepFiled(s: Placing, delta: nat)
    requires Ready(s) && delta <= s.Data(s.openPeriodId).duration
    ensures Filed(s, FillStep(s, delta).next)
  {
    assert FillStep(s, delta).next.periods == StartAd(s, delta).periods;
  }

  lemma {:induction false} FillFiled(s: Placing, delta: nat)
    requires Ready(s) && delta <= s.Data(s.openPeriodId).duration
    ensures Filed(s, Fill(s, delta))
    decreases |s.Ads()| - s.curAdIdx
  {
    hide FillStep, Filed;
    if delta > 0 {
      StepFiled(s, delta);
      var step := FillStep(s, delta);
      if step.more {
        FillFiled(step.next, step.rest);
        FiledChain(s, step.next, Fill(step.next, step.rest));
      }
    } else {
      FiledSelf(s);
    }
  }

  lemma {:induction false} FiledSelf(s: Placing)
    ensures Filed(s, s)
  {
  }

  lemma {:induction false} CountFiled(s: Placing, delta: nat, endNumber: nat)
    ensures var u := Count(s, delta, endNumber);
            && Filed(s, u) && (s.breakId != "" ==> u.Data(u.openPeriodId).adBreakId != "")
            && forall id :: id != s.openPeriodId ==> u.Data(id) == s.Data(id)
  {
    var u, data := Count(s, delta, endNumber), s.Data(s.openPeriodId);
    assert data.adBreakId == "" ==> 0 in u.Data(s.openPeriodId).offset2Ad;
  }

  /** Receiving content leaves the open period tied and the others alone. */
  lemma {:induction false} ReceiveFiled(s: Placing, p: Period)
    requires Ready(s) && s.breakId != ""
    ensures var r := Receive(s, p);
            && Filed(s, r) && r.openPeriodId == s.openPeriodId && r.log.blank == s.log.blank &&
                 r.Data(r.openPeriodId).adBreakId != ""
            && forall id :: id != s.openPeriodId ==> r.Data(id) == s.Data(id)
  {
    hide Fill, Filed, Refiled;
    var (delta, endNumber) := NewContent(p, 0, s.curEndNumber);
    var u := Count(s, delta, endNumber);
    CountFiled(s, delta, endNumber);
    FillFiled(u, delta);
    FiledChain(s, u, Fill(u, delta));
    FiledMeans(u, Fill(u, delta), s.openPeriodId);
    forall id | id != s.openPeriodId ensures Fill(u, delta).Data(id) == s.Data(id) {
      FillTouchesOpen(u, delta, id);
    }
  }

  lemma {:induction false} FiledMeans(s: Placing, r: Placing, id: string)
    requires Filed(s, r)
    ensures r.breakId == s.breakId && Refiled(s.Data(id), r.Data(id), s.breakId)
    ensures s.Data(id).adBreakId != "" ==> r.Data(id).adBreakId == s.Data(id).adBreakId
  {
  }

  lemma {:induction false} OpenFiled(s: Placing, id: string)
    ensures Filed(s, Open(s, id))
  {
  }

  /** Placing over an MPD files periods; the period open afterwards is tied, or nothing was received. */
  lemma {:induction false} PlaceOverFiled(s: Placing, mpd: seq<Period>, i: nat, found: bool)
    requires i <= |mpd| && (s.Done() || Ready(s)) && s.breakId != ""
    ensures var r := PlaceOver(s, mpd, i, found); Filed(s, r) && (r.Data(r.openPeriodId).adBreakId != "" || r == s)
    decreases |mpd| - i
  {
    hide Receive, Filed, Refiled, Ready;
    if i == |mpd| || s.Done() {
      FiledSelf(s);
    } else if mpd[i].id == s.openPeriodId {
      var r := Receive(s, mpd[i]);
      ReceiveFiled(s, mpd[i]);
      PlaceOverFiled(r, mpd, i + 1, true);
      FiledChain(s, r, PlaceOver(r, mpd, i + 1, true));
    } else if found && mpd[i].duration > 0 {
      var u := Open(s, mpd[i].id);
      OpenFiled(s, mpd[i].id);
      OpenReady(s, mpd[i].id);
      ReceiveFiled(u, mpd[i]);
      var r := Receive(u, mpd[i]);
      FiledChain(s, u, r);
      PlaceOverFiled(r, mpd, i + 1, true);
      FiledChain(s, r, PlaceOver(r, mpd, i + 1, true));
    } else {
      PlaceOverFiled(s, mpd, i + 1, found);
    }
  }

  lemma {:induction false} OpenReady(s: Placing, id: string)
    requires Ready(s)
    ensures Ready(Open(s, id)) && Open(s, id).breakId == s.breakId
  {
  }

  lemma {:induction false} AdjustFiled(s: Placing, mpd: seq<Period>)
    ensures RunFiled(s, AdjustEnd(s, mpd))
  {
    var r := AdjustEnd(s, mpd);
    forall id ensures Refiled(s.Data(id), r.Data(id), s.breakId) || r.Data(id) == NO_PERIOD_DATA {
    }
  }

  lemma {:induction false} FiledRuns(s: Placing, r: Placing)
    requires Filed(s, r)
    ensures RunFiled(s, r)
  {
  }

  lemma {:induction false} RunIsFiled(s: Placing, mpds: seq<seq<Period>>)
    requires (s.Done() || Ready(s)) && s.breakId != ""
    ensures RunFiled(s, Run(s, mpds))
    decreases |mpds|
  {
    hide Filed, RunFiled, Refiled, PlaceOver, AdjustEnd, Ready;
    FiledSelf(s);
    FiledRuns(s, s);
    if mpds != [] {
      var w := PlaceOver(s, mpds[0], 0, false);
      PlaceOverFiled(s, mpds[0], 0, false);
      var (u, over) := Refresh(s, mpds[0]);
      if w.Done() {
        AdjustFiled(w, mpds[0]);
        FiledChain(s, w, u);
      } else {
        FiledRuns(s, w);
      }
      if !over {
        UndoneIsPlaced(s, mpds[0]);
        BreakIdKept(s, mpds[0], 0, false);
        RunIsFiled(u, mpds[1..]);
        FiledChain(s, u, Run(u, mpds[1..]));
      }
    }
  }

  /** A placement that is not over after a refresh is what the loop over the periods left. */
  lemma {:induction false} UndoneIsPlaced(s: Placing, mpd: seq<Period>)
    requires s.Done() || Ready(s)
    ensures !Refresh(s, mpd).1 ==> Refresh(s, mpd).0 == PlaceOver(s, mpd, 0, false)
  {
    hide PlaceOver;
  }

  /** The pair that playback gets. After any run of MPD refreshes, at every offset of the bucket where an
      ad of the break starts, the seamless lookup answers with that ad, and with its break if and only if
      the period was not filed under another break before; otherwise the ad's number is given for the
      other break. (The period was reset by the end adjustment if its index is empty, and has received
      no content yet if it is not filed at all.) */
  lemma {:induction false} LookupNamesBreak(s: Placing, mpds: seq<seq<Period>>, k: nat, key: nat,
                                            breaks: map<string, AdBreak>, breakId0: string)
    requires Ledger(s, 0) && (s.Done() || Ready(s)) && AllFit(s, mpds)
    requires Catalog(s, 0) && Long(s.Ads()) && s.breakId != ""
    requires var r := Run(s, mpds);
             k < Started(r) && k < |r.Ads()| && r.Ads()[k].basePeriodOffset >= 0 &&
             var data := r.Data(r.Ads()[k].basePeriodId);
             data.offset2Ad != map[] && data.adBreakId != "" && Bucket(key) == Bucket(r.Ads()[k].basePeriodOffset)
    ensures var r := Run(s, mpds); var id := r.Ads()[k].basePeriodId;
            var (b, idx) := SeamlessAd(breaks[s.breakId := r.brk], r.Data(id), id, key, breakId0);
            && ((b, idx) == (s.breakId, k) <==> s.Data(id).adBreakId in {"", s.breakId})
            && (s.Data(id).adBreakId !in {"", s.breakId} && s.Data(id).adBreakId in breaks ==>
                (b, idx) == (s.Data(id).adBreakId, k))
  {
    hide Run, AllFit, Ledger, Catalog, KeysIncrease, SeamlessIdx;
    LookupInvertsPlacement(s, mpds);
    RunIsFiled(s, mpds);
    var r := Run(s, mpds);
    assert SeamlessIdx(r.Data(r.Ads()[k].basePeriodId), key) == k;
  }

  // ----- In every state reached ----------------------------------------------------------------

  /** A period filed under a break other than its own has an index. */
  ghost predicate Tidy(periods: map<string, PeriodData>) {
    forall id :: id in periods ==> OwnOrIndexed(id, periods[id])
  }

  predicate OwnOrIndexed(id: string, data: PeriodData) {
    data.adBreakId == "" || data.adBreakId == id || data.offset2Ad != map[]
  }

  predicate OwnName(s: Placing, id: string) {
    s.Data(id).adBreakId in {"", s.breakId, id}
  }

  /** The periods opened for a break without another break's index are filed under it or are breaks of their
      own; one still open and not filed is the break's own. */
  ghost predicate Named(s: Placing) {
    && (forall id :: id in s.log.blank ==> OwnName(s, id))
    && (s.Data(s.openPeriodId).adBreakId == "" ==> s.openPeriodId == s.breakId)
  }

  /** The reverse index of the pending break is kept with the ledger, while its ads are long enough. */
  ghost predicate Indexed(m: Manager) {
    && Kept(m) && Tidy(m.periods)
    && (m.Active() ==> Named(m.Current()) && (Long(m.Current().Ads()) ==> Catalog(m.Current(), 0)))
  }

  /** Renaming the break of a period that is filed, and forgetting periods, keeps the index. */
  lemma {:induction false} PeriodsCatalog(s: Placing, u: Placing)
    requires Catalog(s, 0) && u == s.(periods := u.periods)
    requires forall id :: u.Data(id).offset2Ad == s.Data(id).offset2Ad || u.Data(id).offset2Ad == map[]
    requires forall id :: u.Data(id).adBreakId == s.breakId ==>
                            s.Data(id).adBreakId == s.breakId || u.Data(id).offset2Ad == map[]
    requires var d, e := s.Data(s.openPeriodId), u.Data(s.openPeriodId);
             d.duration == e.duration && d.offset2Ad == e.offset2Ad && (d.adBreakId == "" <==> e.adBreakId == "")
    ensures Catalog(u, 0)
  {
    forall k | 0 <= k < Started(u) && k < |u.Ads()| ensures Listed(u, k) {
      assert Listed(s, k);
    }
    forall j, id ensures StartsIn(u, j, id) <==> StartsIn(s, j, id) {
    }
    forall id, key | id in u.log.blank && id in u.periods && key in u.periods[id].offset2Ad ensures KeyOk(u, id, key) {
      assert u.Data(id).offset2Ad == s.Data(id).offset2Ad;
      assert KeyOk(s, id, key);
    }
    forall id | id in u.log.blank && id in u.periods && 0 in u.periods[id].offset2Ad ensures Entered(u, id, 0) {
      assert u.Data(id).offset2Ad == s.Data(id).offset2Ad;
      assert Entered(s, id, 0);
    }
  }

  lemma {:induction false} LedgerNamesOpen(s: Placing)
    requires Ledger(s, 0)
    ensures s.openPeriodId != "" && s.openPeriodId in s.log.base
  {
  }

  lemma {:induction false} AnnounceIndexed(m: Manager, periodId: string, brkDuration: nat)
    requires Indexed(m)
    ensures Indexed(Announce(m, periodId, brkDuration))
  {
    hide Ledger, Catalog, Long, Fair, Budget, Ready;
    var r := Announce(m, periodId, brkDuration);
    ApplyKept(m, Announced(periodId, brkDuration));
    if m.Active() && periodId !in m.breaks {
      var s, u := m.Current(), r.Current();
      LedgerNamesOpen(s);
      if Catalog(s, 0) {
        PeriodsCatalog(s, u);
      }
    }
  }

  lemma {:induction false} PruneIndexed(m: Manager, newPeriodIds: seq<string>, playing: string)
    requires Indexed(m) && Fair(m, Pruned(newPeriodIds, playing))
    ensures Indexed(Prune(m, newPeriodIds, playing))
  {
    hide Ledger, Catalog, Long, Budget, Ready;
    var r := Prune(m, newPeriodIds, playing);
    ApplyKept(m, Pruned(newPeriodIds, playing));
    if m.Active() {
      var s, u := m.Current(), r.Current();
      if Catalog(s, 0) {
        PeriodsCatalog(s, u);
      }
    }
  }

  lemma {:induction false} FulfilIndexed(m: Manager, periodId: string, duration: nat)
    requires Indexed(m) && Fair(m, Fulfilled(periodId, duration))
    ensures Indexed(Fulfil(m, periodId, duration))
  {
    hide Ledger, Catalog, Ready, Fits;
    var r := Fulfil(m, periodId, duration);
    ApplyKept(m, Fulfilled(periodId, duration));
    if periodId in m.breaks {
      var b := m.breaks[periodId];
      if b.ads == [] {
        FirstAdIndexed(m, periodId, duration);
      } else if m.Active() && periodId == m.placement.pendingAdbrkId {
        var s, ad := m.Current(), AdNode(Trimmed(b, duration), false, "", -1);
        assert r.Current() == Joined(s, ad);
        if Long(Joined(s, ad).Ads()) {
          LongPrefix(s, ad);
          AppendCatalog(s, ad);
        }
      }
    }
  }

  lemma {:induction false} LongPrefix(s: Placing, ad: AdNode)
    requires Long(Joined(s, ad).Ads())
    ensures Long(s.Ads())
  {
    forall k | 0 <= k < |s.Ads()| ensures s.Ads()[k].duration >= OFFSET_ALIGN_FACTOR {
      assert Joined(s, ad).Ads()[k] == s.Ads()[k];
    }
  }

  /** A refresh keeps the periods tidy, and the ones of the break named. */
  lemma {:induction false} FiledTidy(s: Placing, r: Placing)
    requires RunFiled(s, r) && Tidy(s.periods)
    ensures Tidy(r.periods)
  {
    forall id | id in r.periods ensures OwnOrIndexed(id, r.periods[id]) {
      assert r.Data(id) == r.periods[id];
      assert id in s.periods ==> OwnOrIndexed(id, s.periods[id]);
    }
  }

  lemma {:induction false} OpenNamed(s: Placing, id: string)
    requires Tidy(s.periods) && forall x :: x in s.log.blank ==> OwnName(s, x)
    ensures var u := Open(s, id); Tidy(u.periods) && forall x :: x in u.log.blank ==> OwnName(u, x)
  {
    var u := Open(s, id);
    OpenFiled(s, id);
    FiledRuns(s, u);
    FiledTidy(s, u);
    forall x | x in u.log.blank ensures OwnName(u, x) {
      assert u.Data(x).adBreakId == s.Data(x).adBreakId;
      if x == id {
        assert Blank(s, id) && (id in s.periods ==> OwnOrIndexed(id, s.periods[id]));
      } else {
        assert OwnName(s, x);
      }
    }
  }

  lemma {:induction false} ReceiveNamed(s: Placing, p: Period)
    requires Ready(s) && s.breakId != "" && Tidy(s.periods) && forall x :: x in s.log.blank ==> OwnName(s, x)
    ensures var r := Receive(s, p);
            r.breakId == s.breakId && Tidy(r.periods) && forall x :: x in r.log.blank ==> OwnName(r, x)
  {
    hide Receive, Filed, Ready, Tidy;
    var r := Receive(s, p);
    ReceiveFiled(s, p);
    FiledRuns(s, r);
    FiledTidy(s, r);
    forall x | x in r.log.blank ensures OwnName(r, x) {
      FiledMeans(s, r, x);
      assert OwnName(s, x);
    }
  }

  lemma {:induction false} PlaceOverNames(s: Placing, mpd: seq<Period>, i: nat, found: bool)
    requires i <= |mpd| && (s.Done() || Ready(s)) && s.breakId != ""
    requires Tidy(s.periods) && forall x :: x in s.log.blank ==> OwnName(s, x)
    ensures var r := PlaceOver(s, mpd, i, found);
            r.breakId == s.breakId && Tidy(r.periods) && forall x :: x in r.log.blank ==> OwnName(r, x)
    decreases |mpd| - i
  {
    hide Receive, Tidy, OwnName, Ready, Open;
    if i < |mpd| && !s.Done() {
      if mpd[i].id == s.openPeriodId {
        ReceiveNamed(s, mpd[i]);
        PlaceOverNames(Receive(s, mpd[i]), mpd, i + 1, true);
      } else if found && mpd[i].duration > 0 {
        var u := Open(s, mpd[i].id);
        OpenReady(s, mpd[i].id);
        OpenNamed(s, mpd[i].id);
        ReceiveNamed(u, mpd[i]);
        PlaceOverNames(Receive(u, mpd[i]), mpd, i + 1, true);
      } else {
        PlaceOverNames(s, mpd, i + 1, found);
      }
    }
  }

  lemma {:induction false} PlaceOverNamed(s: Placing, mpd: seq<Period>)
    requires (s.Done() || Ready(s)) && s.breakId != "" && Tidy(s.periods) && Named(s)
    ensures var r := PlaceOver(s, mpd, 0, false); Named(r) && Tidy(r.periods) && r.breakId == s.breakId
  {
    hide PlaceOver, Ready, Tidy, OwnName, Filed;
    PlaceOverFiled(s, mpd, 0, false);
    PlaceOverNames(s, mpd, 0, false);
  }

  lemma {:induction false} PlaceIndexed(m: Manager, mpd: seq<Period>)
    requires Indexed(m) && Fair(m, Refreshed(mpd))
    ensures Indexed(Place(m, mpd))
  {
    hide PlaceOver, AdjustEnd, Ledger, Catalog, Ready, Distinct, Unseen, Budget, Long, Named, Tidy, RunFiled,
        SameAds, Punctual;
    ApplyKept(m, Refreshed(mpd));
    if m.Active() {
      var s := m.Current();
      var w := PlaceOver(s, mpd, 0, false);
      PlaceOverNamed(s, mpd);
      PlaceOverKeeps(s, mpd, 0, false);
      FilledMeans(s, w);
      AdjustFiled(w, mpd);
      FiledTidy(w, AdjustEnd(w, mpd));
      PlacedMeans(m, mpd);
      if Place(m, mpd).Active() && Long(w.Ads()) {
        LongSame(w.Ads(), s.Ads());
        PlaceOverCatalog(s, mpd, 0, false);
      }
    }
  }

  /** Whatever is announced, fulfilled, refreshed or pruned, and in whatever order. */
  lemma {:induction false} ApplyIndexed(m: Manager, op: Op)
    requires Indexed(m) && Fair(m, op)
    ensures Sound(Apply(m, op)) && Indexed(Apply(m, op))
  {
    hide Indexed, Sound;
    IndexedMeans(m);
    ApplySound(m, op);
    match op
    case Announced(periodId, brkDuration) => AnnounceIndexed(m, periodId, brkDuration);
    case Fulfilled(periodId, duration) => FulfilIndexed(m, periodId, duration);
    case Refreshed(mpd) => PlaceIndexed(m, mpd);
    case Pruned(newPeriodIds, playing) => PruneIndexed(m, newPeriodIds, playing);
  }

  lemma {:induction false} IndexedMeans(m: Manager)
    ensures Indexed(m) ==> Sound(m)
  {
  }

  lemma {:induction false} RunIndexed(m: Manager, ops: seq<Op>)
    requires Indexed(m) && AllFair(m, ops)
    ensures Indexed(After(m, ops))
    decreases |ops|
  {
    hide Fair, Apply, Indexed, Sound;
    IndexedMeans(m);
    if ops != [] {
      ApplyIndexed(m, ops[0]);
      RunIndexed(Apply(m, ops[0]), ops[1..]);
    }
  }

  /** In every state reached from the start, for every ad of the pending break that has its place: at every
      offset of the bucket where it starts the seamless lookup answers with that ad, and with its break if
      and only if the period is filed under it; otherwise with the ad's number in that other break. A period
      opened without another break's index is filed under the pending break unless it was announced as a
      break of its own. */
  lemma {:induction false} ReachedLookup(ops: seq<Op>, k: nat, key: nat, breakId0: string)
    requires AllFair(START, ops)
    requires var m := After(START, ops);
             m.Active() && Long(m.Current().Ads()) && k < Started(m.Current()) && k < |m.Current().Ads()| &&
             var ad := m.Current().Ads()[k];
             m.Data(ad.basePeriodId).offset2Ad != map[] && m.Data(ad.basePeriodId).adBreakId != "" &&
             ad.basePeriodOffset >= 0 && Bucket(key) == Bucket(ad.basePeriodOffset)
    ensures var m := After(START, ops); var s := m.Current(); var id := s.Ads()[k].basePeriodId;
            var (b, idx), filed := SeamlessAd(m.breaks, m.Data(id), id, key, breakId0), m.Data(id).adBreakId;
            && ((b, idx) == (s.breakId, k) <==> filed == s.breakId) && (filed in m.breaks ==> (b, idx) == (filed, k))
            && (id in m.log.blank ==> (filed == s.breakId <==> !(filed == id != s.breakId)))
  {
    hide After, AllFair, Ledger, Catalog, SeamlessIdx, Tidy, Long;
    var m := After(START, ops);
    StartIndexed(ops);
    var s := m.Current();
    CatalogFindable(s);
    LedgerNamed(s, k);
    assert s.log.blank == m.log.blank && (s.Ads()[k].basePeriodId in m.log.blank ==>
                                          OwnName(s, s.Ads()[k].basePeriodId));
    assert SeamlessIdx(s.Data(s.Ads()[k].basePeriodId), key) == k;
  }

  lemma {:induction false} LedgerNamed(s: Placing, k: nat)
    requires Ledger(s, 0) && k < Started(s)
    ensures k < |s.Ads()| && s.Ads()[k].basePeriodId in s.log.base
  {
    assert Placed(s, k);
  }

  lemma {:induction false} StartIndexed(ops: seq<Op>)
    requires AllFair(START, ops)
    ensures Indexed(After(START, ops))
  {
    hide After, AllFair;
    RunIndexed(START, ops);
  }

  // ----- An ad that spills into a period announced as a break of its own -------------------------

  lemma {:induction false} AfterOneMore(m: Manager, ops: seq<Op>, op: Op)
    requires Sound(m)
    ensures After(m, ops + [op]) == Apply(After(m, ops), op)
    decreases |ops|
  {
    hide Apply, Sound;
    if ops == [] {
      assert [] + [op] == [op];
      ApplySound(m, op);
      assert After(Apply(m, op), []) == Apply(m, op);
    } else {
      ApplySound(m, ops[0]);
      AfterOneMore(Apply(m, ops[0]), ops[1..], op);
      assert (ops + [op])[1..] == ops[1..] + [op];
    }
  }

  const ANNOUNCED_P := [Announced("p", 8000)]
  const FIRST_AD := ANNOUNCED_P + [Fulfilled("p", 4000)]
  const SECOND_AD := FIRST_AD + [Fulfilled("p", 2000)]
  const THIRD_AD := SECOND_AD + [Fulfilled("p", 2000)]
  const ANNOUNCED_Q := THIRD_AD + [Announced("q", 6000)]
  const PERIOD_P := Period("p", 4000, 1, [4000])
  const PERIOD_Q := Period("q", 3000, 1, [3000])
  const SPILL := ANNOUNCED_Q + [Refreshed([PERIOD_P, PERIOD_Q])]

  const WAITING := AdNode(2000, false, "", -1)
  const BREAK_P := Append(AdBreak(8000, [], "", 0, 0, false), AdNode(4000, false, "p", 0))

  /** The state in which the refresh arrives. */
  const SPILLING :=
    Placing(Append(Append(BREAK_P, WAITING), WAITING),
            map["p" := PeriodData(false, "p", 0, map[0 := AdOnPeriod(0, 0)]), "q" := PeriodData(false, "q", 0, map[])],
            "p", "p", 0, 0, 0, Log(map["p" := 0], 0, 0, false, 0, [0], map["p" := 0], {"p"}))

  /** Period q afterwards: the second ad starts at its beginning, the third one after two seconds. */
  const SPILLED_Q := PeriodData(false, "q", 3000, map[0 := AdOnPeriod(1, 0), 2000 := AdOnPeriod(2, 0)])

  /** Break p has the given ads, before its first content. */
  ghost predicate HoldsP(m: Manager, b: AdBreak) {
    && m.breaks == map["p" := b] && m.periods == map["p" := SPILLING.periods["p"]]
    && m.placement == Placement("p", "p", 0, 0, 0) && m.log == SPILLING.log
  }

  lemma {:induction false} PlaceHolderP()
    ensures After(START, ANNOUNCED_P) ==
            Manager(map["p" := AdBreak(8000, [], "", 0, 0, false)], map["p" := PeriodData(false, "p", 0, map[])], IDLE,
                    NO_LOG)
  {
    hide After, Fulfil, Place, Prune;
    AfterNothing(START);
    AfterOneMore(START, [], Announced("p", 8000));
    assert [] + [Announced("p", 8000)] == ANNOUNCED_P;
  }

  lemma {:induction false} AfterNothing(m: Manager)
    requires Sound(m)
    ensures After(m, []) == m
  {
  }

  lemma {:induction false} FirstAdJoins()
    ensures HoldsP(After(START, FIRST_AD), BREAK_P)
  {
    hide After, Place, Prune;
    PlaceHolderP();
    AfterOneMore(START, ANNOUNCED_P, Fulfilled("p", 4000));
    assert NewLog("p", PeriodData(false, "p", 0, map[])) == SPILLING.log;
  }

  lemma {:induction false} NextAdJoins(m: Manager, b: AdBreak)
    requires Sound(m) && HoldsP(m, b) && b.ads != [] && b.adsDuration + 2000 <= b.brkDuration
    ensures HoldsP(Apply(m, Fulfilled("p", 2000)), Append(b, WAITING))
  {
  }

  lemma {:induction false} SpillArrives()
    ensures var m := After(START, ANNOUNCED_Q);
            && m.breaks == map["p" := SPILLING.brk, "q" := AdBreak(6000, [], "", 0, 0, false)]
            && m.Active() && m.Current() == SPILLING
  {
    hide After, Fulfil, Place, Prune;
    FirstAdJoins();
    NextAdJoins(After(START, FIRST_AD), BREAK_P);
    AfterOneMore(START, FIRST_AD, Fulfilled("p", 2000));
    NextAdJoins(After(START, SECOND_AD), Append(BREAK_P, WAITING));
    AfterOneMore(START, SECOND_AD, Fulfilled("p", 2000));
    AfterOneMore(START, THIRD_AD, Announced("q", 6000));
  }

  /** Period p is filled by the first ad. */
  lemma {:induction false} FirstAdFillsP()
    ensures Ready(SPILLING)
    ensures var r := Receive(SPILLING, PERIOD_P);
            && Ready(r) && r.curAdIdx == 1 && r.adNextOffset == 0 && |r.Ads()| == 3
            && r.Ads()[1] == r.Ads()[2] == WAITING && r.openPeriodId == "p" && r.breakId == "p"
            && "q" in r.periods && r.periods["q"] == SPILLING.periods["q"]
  {
    assert NewContent(PERIOD_P, 0, 0) == (4000, 1) by {
      assert NewContent(PERIOD_P, 1, 1) == (0, 1);
    }
    var u := Count(SPILLING, 4000, 1);
    var step := FillStep(u, 4000);
    assert step.more && step.rest == 0 && Fill(u, 4000) == step.next;
  }

  /** The other two start in period q. */
  lemma {:induction false} OthersSpill(s: Placing)
    requires Ready(s) && s.curAdIdx == 1 && s.adNextOffset == 0 && |s.Ads()| == 3
    requires s.Ads()[1] == s.Ads()[2] == WAITING && s.openPeriodId == "p"
    requires "q" in s.periods && s.periods["q"] == SPILLING.periods["q"]
    ensures Ready(Open(s, "q"))
    ensures var r := Receive(Open(s, "q"), PERIOD_Q);
            && Ready(r) && |r.Ads()| == 3 && r.Ads()[1] == AdNode(2000, true, "q", 0)
            && r.Ads()[2] == AdNode(2000, false, "q", 2000) && r.Data("q") == SPILLED_Q
  {
    assert NewContent(PERIOD_Q, 0, 0) == (3000, 1) by {
      assert NewContent(PERIOD_Q, 1, 1) == (0, 1);
    }
    var u := Count(Open(s, "q"), 3000, 1);
    assert u.Data("q") == PeriodData(false, "q", 3000, map[]);
    SecondIsLaid(u);
    ThirdStarts(FillStep(u, 3000).next);
  }

  lemma {:induction false} SecondIsLaid(u: Placing)
    requires Ready(u) && u.curAdIdx == 1 && u.adNextOffset == 0 && |u.Ads()| == 3 && u.openPeriodId == "q"
    requires u.Ads()[1] == u.Ads()[2] == WAITING && u.Data("q") == PeriodData(false, "q", 3000, map[])
    ensures var step := FillStep(u, 3000);
            && step.more && step.rest == 1000 && Fill(u, 3000) == Fill(step.next, 1000)
            && step.next.curAdIdx == 2 && step.next.adNextOffset == 0 && |step.next.Ads()| == 3
            && step.next.Ads()[1] == AdNode(2000, true, "q", 0) && step.next.Ads()[2] == WAITING
            && step.next.Data("q") == PeriodData(false, "q", 3000, map[0 := AdOnPeriod(1, 0)])
  {
  }

  lemma {:induction false} ThirdStarts(u: Placing)
    requires Ready(u) && u.curAdIdx == 2 && u.adNextOffset == 0 && |u.Ads()| == 3 && u.openPeriodId == "q"
    requires u.Ads()[2] == WAITING && u.Data("q") == PeriodData(false, "q", 3000, map[0 := AdOnPeriod(1, 0)])
    ensures var r := Fill(u, 1000);
            && Ready(r) && |r.Ads()| == 3 && r.Ads()[1] == u.Ads()[1]
            && r.Ads()[2] == AdNode(2000, false, "q", 2000) && r.Data("q") == SPILLED_Q
  {
    assert Fill(u, 1000) == FillStep(u, 1000).next;
  }

  /** The second ad of break p starts in period q, is found there, and is told to be the second ad of break
      q, which has no ads. */
  lemma {:induction false} SpilledAdIsMisfiled()
    ensures var m := After(START, SPILL);
            && m.placement.pendingAdbrkId == "p" && "p" in m.breaks && "q" in m.breaks && m.breaks["q"].ads == []
            && |m.breaks["p"].ads| == 3 && m.breaks["p"].ads[1].basePeriodId == "q" &&
                 m.breaks["p"].ads[1].basePeriodOffset == 0
            && SeamlessAd(m.breaks, m.Data("q"), "q", 0, "") == ("q", 1)
  {
    hide Receive, Ready, After;
    Spilled();
  }

  /** The state after the spill. */
  lemma {:induction false} Spilled()
    ensures var m := After(START, SPILL);
            && m.placement.pendingAdbrkId == "p" && "p" in m.breaks && |m.breaks["p"].ads| == 3 &&
                 m.breaks["p"].ads[1] == AdNode(2000, true, "q", 0)
            && "q" in m.breaks && m.breaks["q"] == AdBreak(6000, [], "", 0, 0, false)
            && "q" in m.periods && m.periods["q"] == SPILLED_Q
  {
    hide Receive, Ready, After;
    SpillArrives();
    FirstAdFillsP();
    OthersSpill(Receive(SPILLING, PERIOD_P));
    var mpd := [PERIOD_P, PERIOD_Q];
    AfterOneMore(START, ANNOUNCED_Q, Refreshed(mpd));
    PlacedOverBoth(Receive(Open(Receive(SPILLING, PERIOD_P), "q"), PERIOD_Q));
  }

  lemma {:induction false} PlacedOverBoth(r: Placing)
    requires Ready(SPILLING) && Ready(Receive(SPILLING, PERIOD_P)) && Ready(Open(Receive(SPILLING, PERIOD_P), "q"))
    requires r == Receive(Open(Receive(SPILLING, PERIOD_P), "q"), PERIOD_Q) && Ready(r)
    ensures PlaceOver(SPILLING, [PERIOD_P, PERIOD_Q], 0, false) == r
  {
    hide Receive;
    var mpd := [PERIOD_P, PERIOD_Q];
    var u := Receive(SPILLING, PERIOD_P);
    ReceiveFiled(SPILLING, PERIOD_P);
    assert PlaceOver(SPILLING, mpd, 0, false) == PlaceOver(u, mpd, 1, true);
    assert PlaceOver(r, mpd, 2, true) == r;
  }

  // ----- And the break that starts in such a period ----------------------------------------------

  const Q_FIRST := SPILL + [Fulfilled("q", 2000)]
  const Q_SECOND := Q_FIRST + [Fulfilled("q", 2000)]
  const LONGER_Q := Period("q", 3500, 1, [3000, 500])
  const Q_PLACED := Q_SECOND + [Refreshed([LONGER_Q])]

  const BREAK_Q := Append(AdBreak(6000, [], "", 0, 0, false), AdNode(2000, false, "q", 0))

  /** Period q when that refresh arrives: content and third ad of break p are still there. */
  const STARTING_Q := PeriodData(false, "q", 3000, map[0 := AdOnPeriod(0, 0), 2000 := AdOnPeriod(2, 0)])

  lemma {:induction false} QFulfilledOnce()
    ensures var m := After(START, Q_FIRST);
            && "q" in m.breaks && m.breaks["q"] == BREAK_Q && "q" in m.periods && m.periods["q"] == STARTING_Q
            && m.placement == Placement("q", "q", 0, 0, 0) && m.log == NewLog("q", SPILLED_Q)
  {
    hide After, Place, Prune;
    Spilled();
    AfterOneMore(START, SPILL, Fulfilled("q", 2000));
    assert SPILLED_Q.offset2Ad[0 := AdOnPeriod(0, 0)] == STARTING_Q.offset2Ad;
  }

  lemma {:induction false} QFulfilledTwice()
    ensures var m := After(START, Q_SECOND);
            && m.Active() && "q" in m.periods && m.periods["q"] == STARTING_Q && m.log == NewLog("q", SPILLED_Q)
            && m.placement == Placement("q", "q", 0, 0, 0)
            && m.Current() == Placing(Append(BREAK_Q, WAITING), m.periods, "q", "q", 0, 0, 0, m.log)
  {
    hide After, Place, Prune;
    QFulfilledOnce();
    AfterOneMore(START, Q_FIRST, Fulfilled("q", 2000));
  }

  /** Both ads of break q are laid, the second one 3 s late. */
  lemma {:induction false} QReceives(s: Placing)
    requires Ready(s) && s.brk == Append(BREAK_Q, WAITING) && s.curAdIdx == 0 && s.adNextOffset == 0
    requires s.openPeriodId == "q" && s.curEndNumber == 0 && "q" in s.periods && s.periods["q"] == STARTING_Q
    ensures var r := Receive(s, LONGER_Q);
            && Ready(r) && r.breakId == s.breakId
            && r.Ads() == [AdNode(2000, true, "q", 0), AdNode(2000, false, "q", 5000)]
            && r.Data("q").adBreakId == "q" && 2000 in r.Data("q").offset2Ad &&
                 r.Data("q").offset2Ad[2000] == AdOnPeriod(2, 0)
  {
    assert NewContent(LONGER_Q, 0, 0) == (3500, 2) by {
      assert NewContent(LONGER_Q, 2, 2) == (0, 2) && NewContent(LONGER_Q, 1, 1) == (500, 2);
    }
    var u := Count(s, 3500, 2);
    var step := FillStep(u, 3500);
    assert step.more && step.rest == 1500 && Fill(u, 3500) == Fill(step.next, 1500);
  }

  /** Break q starts in the period into which break p spilled: its first ad of 2 s stands at the beginning
      and its second one at 5 s, behind the 3.5 s of content that the period has; and at 2 s a third ad is
      found, which it does not have. */
  lemma {:induction false} SpilledBreakStartsLate()
    ensures var m := After(START, Q_PLACED);
            && "q" in m.breaks && m.breaks["q"].ads == [AdNode(2000, true, "q", 0), AdNode(2000, false, "q", 5000)]
            && SeamlessAd(m.breaks, m.Data("q"), "q", 2000, "") == ("q", 2)
  {
    hide Receive, After;
    QFulfilledTwice();
    var m := After(START, Q_SECOND);
    var s := m.Current();
    QReceives(s);
    AfterOneMore(START, Q_SECOND, Refreshed([LONGER_Q]));
    var r := Receive(s, LONGER_Q);
    assert PlaceOver(r, [LONGER_Q], 1, true) == r;
    assert PlaceOver(s, [LONGER_Q], 0, false) == r;
  }
}
