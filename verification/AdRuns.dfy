/** Whole refreshes and runs of refreshes of a break being placed: the ledger holds throughout. */
module AdRuns {
  import opened Common
  import opened AdPlacement

  /** A period that this break has not opened. */
  predicate Unseen(s: Placing, id: string) {
    id != "" && id !in s.log.base
  }

  predicate Distinct(mpd: seq<Period>) {
    forall a, b :: 0 <= a < b < |mpd| ==> mpd[a].id != mpd[b].id
  }

  /** The MPD lists distinct periods, and those after the open period are unseen; once the open period
      was found, everything from i on is. */
  predicate Fits(s: Placing, mpd: seq<Period>, i: nat, found: bool) {
    && Distinct(mpd)
    && (if found then s.openPeriodId in s.periods && forall b :: i <= b < |mpd| ==> Unseen(s, mpd[b].id)
        else forall a, b :: i <= a < b < |mpd| && mpd[a].id == s.openPeriodId ==> Unseen(s, mpd[b].id))
  }

  lemma {:induction false} CountKeeps(s: Placing, delta: nat, endNumber: nat)
    requires Ledger(s, 0) && !s.log.ended
    ensures var u := Count(s, delta, endNumber);
            && Ledger(u, delta) && !u.log.ended && Ready(u) && u.Ads() == s.Ads() && (Punctual(s) ==> Punctual(u))
            && u.openPeriodId in u.periods
  {
    var u := Count(s, delta, endNumber);
    forall k | 0 <= k < Started(s) ensures Placed(u, k) {
      assert Placed(s, k);
    }
  }

  lemma {:induction false} OpenKeeps(s: Placing, id: string)
    requires Ledger(s, 0) && !s.log.ended && Unseen(s, id)
    ensures var u := Open(s, id);
            Ledger(u, 0) && !u.log.ended && Ready(u) && u.Ads() == s.Ads() && (Punctual(s) ==> Punctual(u))
  {
    var u := Open(s, id);
    forall k | 0 <= k < Started(s) ensures Placed(u, k) {
      assert Placed(s, k);
    }
  }

  /** The other periods are left alone by receiving content. */
  lemma {:induction false} StartTouchesOpen(s: Placing, delta: nat, id: string)
    requires s.curAdIdx < |s.Ads()| && delta <= s.Data(s.openPeriodId).duration && id != s.openPeriodId
    ensures StartAd(s, delta).Data(id) == s.Data(id)
    ensures s.openPeriodId in s.periods ==> s.openPeriodId in StartAd(s, delta).periods
  {
  }

  lemma {:induction false} FillTouchesOpen(s: Placing, delta: nat, id: string)
    requires Ready(s) && delta <= s.Data(s.openPeriodId).duration && id != s.openPeriodId
    ensures Fill(s, delta).Data(id) == s.Data(id)
    ensures s.openPeriodId in s.periods ==> s.openPeriodId in Fill(s, delta).periods
    decreases |s.Ads()| - s.curAdIdx
  {
    if delta > 0 {
      StartTouchesOpen(s, delta, id);
      var step := FillStep(s, delta);
      assert step.next.periods == StartAd(s, delta).periods;
      if step.more {
        FillTouchesOpen(step.next, step.rest, id);
      }
    }
  }

  lemma {:induction false} ReceiveKeeps(s: Placing, p: Period)
    requires Ledger(s, 0) && !s.log.ended && Ready(s)
    ensures var r := Receive(s, p);
            && Filled(s, r, 0) && r.openPeriodId == s.openPeriodId && r.openPeriodId in r.periods &&
                 r.log.base == s.log.base && r.log.held == s.log.held && r.log.blank == s.log.blank
            && forall id :: id != s.openPeriodId ==> r.Data(id) == s.Data(id)
  {
    var (delta, endNumber) := NewContent(p, 0, s.curEndNumber);
    var u := Count(s, delta, endNumber);
    CountKeeps(s, delta, endNumber);
    FillKeeps(u, delta);
    forall id | id != s.openPeriodId ensures Fill(u, delta).Data(id) == s.Data(id) {
      FillTouchesOpen(u, delta, id);
    }
    FillTouchesOpen(u, delta, s.openPeriodId + "'");
  }

  /** Placing over an MPD keeps the ledger. */
  lemma {:induction false} PlaceOverKeeps(s: Placing, mpd: seq<Period>, i: nat, found: bool)
    requires Ledger(s, 0) && (s.Done() || Ready(s)) && i <= |mpd| && Fits(s, mpd, i, found)
    ensures Filled(s, PlaceOver(s, mpd, i, found), 0)
    decreases |mpd| - i
  {
    hide Fill, Count, Placed, Ledger, Punctual, Receive;
    if i < |mpd| && !s.Done() {
      LedgerOpen(s);
      if mpd[i].id == s.openPeriodId {
        ReceiveKeeps(s, mpd[i]);
        var r := Receive(s, mpd[i]);
        PlaceOverKeeps(r, mpd, i + 1, true);
      } else if found && mpd[i].duration > 0 {
        OpenKeeps(s, mpd[i].id);
        var u := Open(s, mpd[i].id);
        ReceiveKeeps(u, mpd[i]);
        var r := Receive(u, mpd[i]);
        forall b | i + 1 <= b < |mpd| ensures Unseen(r, mpd[b].id) {
          assert Unseen(s, mpd[b].id) && mpd[b].id != mpd[i].id;
        }
        PlaceOverKeeps(r, mpd, i + 1, true);
      } else {
        PlaceOverKeeps(s, mpd, i + 1, found);
      }
    }
  }

  lemma {:induction false} LedgerOpen(s: Placing)
    requires Ledger(s, 0) && !s.Done() && Ready(s)
    ensures !s.log.ended && s.openPeriodId in s.log.base
  {
  }

  /** Every period the break has passed through, and that is still known, is marked as filled. */
  ghost predicate PassedFilled(s: Placing) {
    forall id :: id in s.log.base && id != s.openPeriodId && id in s.periods ==> s.periods[id].filled
  }

  /** Placing over an MPD marks the periods it passes through. */
  lemma {:induction false} PlaceOverFills(s: Placing, mpd: seq<Period>, i: nat, found: bool)
    requires Ledger(s, 0) && (s.Done() || Ready(s)) && i <= |mpd| && Fits(s, mpd, i, found) && PassedFilled(s)
    ensures PassedFilled(PlaceOver(s, mpd, i, found))
    decreases |mpd| - i
  {
    hide Fill, Count, Placed, Ledger, Punctual, Receive;
    if i < |mpd| && !s.Done() {
      LedgerOpen(s);
      if mpd[i].id == s.openPeriodId {
        ReceiveKeeps(s, mpd[i]);
        ReceiveFills(s, mpd[i]);
        PlaceOverFills(Receive(s, mpd[i]), mpd, i + 1, true);
      } else if found && mpd[i].duration > 0 {
        OpenKeeps(s, mpd[i].id);
        var u := Open(s, mpd[i].id);
        ReceiveKeeps(u, mpd[i]);
        ReceiveFills(u, mpd[i]);
        var r := Receive(u, mpd[i]);
        forall b | i + 1 <= b < |mpd| ensures Unseen(r, mpd[b].id) {
          assert Unseen(s, mpd[b].id) && mpd[b].id != mpd[i].id;
        }
        PlaceOverFills(r, mpd, i + 1, true);
      } else {
        PlaceOverFills(s, mpd, i + 1, found);
      }
    }
  }

  lemma {:induction false} ReceiveFills(s: Placing, p: Period)
    requires Ready(s) && PassedFilled(s) && !s.log.ended && Ledger(s, 0)
    ensures PassedFilled(Receive(s, p))
  {
    hide Receive, Ledger;
    var r := Receive(s, p);
    ReceiveKeeps(s, p);
    forall id | id in r.log.base && id != r.openPeriodId && id in r.periods ensures r.periods[id].filled {
      assert r.Data(id) == s.Data(id);
      ReceiveAdds(s, p, id);
    }
  }

  /** Receiving content makes no other period known. */
  lemma {:induction false} ReceiveAdds(s: Placing, p: Period, id: string)
    requires Ready(s) && id != s.openPeriodId
    ensures id in Receive(s, p).periods <==> id in s.periods
  {
    var (delta, endNumber) := NewContent(p, 0, s.curEndNumber);
    FillAdds(Count(s, delta, endNumber), delta, id);
  }

  lemma {:induction false} FillAdds(s: Placing, delta: nat, id: string)
    requires Ready(s) && delta <= s.Data(s.openPeriodId).duration && id != s.openPeriodId
    ensures id in Fill(s, delta).periods <==> id in s.periods
    decreases |s.Ads()| - s.curAdIdx
  {
    if delta > 0 {
      var step := FillStep(s, delta);
      assert step.next.periods == StartAd(s, delta).periods;
      if step.more {
        FillAdds(step.next, step.rest, id);
      }
    }
  }

  // ----- Runs of refreshes ---------------------------------------------------------------------

  /** The state after a run of MPD refreshes; nothing happens once the placement is over. */
  function Run(s: Placing, mpds: seq<seq<Period>>): Placing
    requires s.Done() || Ready(s)
    decreases |mpds|
  {
    if mpds == [] then s
    else
      var (u, over) := Refresh(s, mpds[0]);
      if over then u else Run(u, mpds[1..])
  }

  /** Every MPD of the run fits the state it arrives in. */
  ghost predicate AllFit(s: Placing, mpds: seq<seq<Period>>)
    requires s.Done() || Ready(s)
    decreases |mpds|
  {
    mpds == [] ||
    (Fits(s, mpds[0], 0, false) && var (u, over) := Refresh(s, mpds[0]); !over ==> AllFit(u, mpds[1..]))
  }

  /** Content accounting of a break in whatever state its placement is: everything received is an ad
      laid, the current ad's offset, content discarded, or what was left over after the last ad; and
      each ad that has a place starts, on the content timeline, where the ads before it end, late by
      what was discarded before its turn. */
  ghost predicate Accounted(s: Placing) {
    && InTurn(s) && s.curAdIdx <= |s.Ads()|
    && s.log.received == Sum(s.Ads(), s.curAdIdx) + s.log.discarded +
         (if s.log.ended then s.log.leftover else s.adNextOffset)
    && (!s.log.ended ==> s.curAdIdx < |s.Ads()| && s.adNextOffset <= s.Ads()[s.curAdIdx].duration)
  }

  /** The same with every ad on time: nothing was discarded except under the last ad. Each ad starts where the
      ads before it end, but for the shift of its period. */
  ghost predicate Laid(s: Placing) {
    && Accounted(s) && Punctual(s)
    && forall k :: 0 <= k < Started(s) ==>
         s.Ads()[k].basePeriodId in s.log.base && StartOf(s, k) == Sum(s.Ads(), k) + Shift(s, k)
  }

  lemma {:induction false} LedgerAccounted(s: Placing)
    requires Ledger(s, 0)
    ensures Accounted(s) && (s.Done() <==> s.log.ended)
  {
  }

  lemma {:induction false} PunctualLaid(s: Placing)
    requires Accounted(s) && Punctual(s)
    ensures Laid(s)
  {
    forall k | 0 <= k < Started(s)
      ensures s.Ads()[k].basePeriodId in s.log.base && StartOf(s, k) == Sum(s.Ads(), k) + Shift(s, k)
    {
      assert Placed(s, k);
    }
  }

  /** The end adjustment moves end markers only. */
  lemma {:induction false} AdjustAccounted(s: Placing, mpd: seq<Period>)
    requires Accounted(s) && s.Done() && s.log.ended
    ensures var r := AdjustEnd(s, mpd);
            && Accounted(r) && (Punctual(s) ==> Punctual(r)) && (r.Done() ==> r == s)
            && r.Ads() == s.Ads() && r.log == s.log && r.curAdIdx == s.curAdIdx && r.breakId == s.breakId
  {
    var r := AdjustEnd(s, mpd);
    assert r.Ads() == s.Ads() && r.log == s.log;
    forall k | 0 <= k < Started(r) ensures Placed(r, k) {
      assert Placed(s, k);
    }
  }

  /** Over every run of MPD refreshes with a fixed list of ads the content is accounted for, and ads
      that were on time stay on time. */
  lemma {:induction false} RunAccounted(s: Placing, mpds: seq<seq<Period>>)
    requires Ledger(s, 0) && (s.Done() || Ready(s)) && AllFit(s, mpds)
    ensures var r := Run(s, mpds);
            && Accounted(r) && SameAds(s.Ads(), r.Ads()) && (Punctual(s) ==> Punctual(r)) && HeldStays(s, r)
    decreases |mpds|
  {
    hide Ledger, Punctual, Accounted, AdjustEnd, PlaceOver, Fits, SameAds;
    if mpds == [] {
      LedgerAccounted(s);
      SameAdsSelf(s.Ads());
    } else {
      var w := PlaceOver(s, mpds[0], 0, false);
      PlaceOverKeeps(s, mpds[0], 0, false);
      FilledMeans(s, w);
      LedgerAccounted(w);
      var (u, over) := Refresh(s, mpds[0]);
      if w.Done() {
        AdjustAccounted(w, mpds[0]);
      }
      if !over {
        RunAccounted(u, mpds[1..]);
        SameAdsChain(s.Ads(), u.Ads(), Run(u, mpds[1..]).Ads());
      }
    }
  }

  lemma {:induction false} FilledMeans(s: Placing, r: Placing)
    requires Filled(s, r, 0)
    ensures Ledger(r, 0) && SameAds(s.Ads(), r.Ads()) && (Punctual(s) ==> Punctual(r)) && HeldStays(s, r)
  {
  }

  lemma {:induction false} SameAdsSelf(a: seq<AdNode>)
    ensures SameAds(a, a)
  {
  }

  /** From a punctual state the placement stays laid. */
  lemma {:induction false} RunLaid(s: Placing, mpds: seq<seq<Period>>)
    requires Ledger(s, 0) && Punctual(s) && (s.Done() || Ready(s)) && AllFit(s, mpds)
    ensures Laid(Run(s, mpds)) && SameAds(s.Ads(), Run(s, mpds).Ads()) && HeldStays(s, Run(s, mpds))
  {
    hide Ledger, Punctual, Accounted, Laid, SameAds, Run, AllFit;
    RunAccounted(s, mpds);
    PunctualLaid(Run(s, mpds));
  }

  /** Contiguity: for a fixed ad list and any run of MPD refreshes, each later ad starts on the content
      timeline exactly where the previous ad's duration ends, if and only if the periods of the two are
      shifted equally, as they are where no period held content before the break opened it. */
  lemma {:induction false} AdsAreContiguous(s: Placing, mpds: seq<seq<Period>>, k: nat)
    requires Ledger(s, 0) && Punctual(s) && (s.Done() || Ready(s)) && AllFit(s, mpds)
    requires k + 1 < Started(Run(s, mpds))
    ensures var r := Run(s, mpds);
            && k + 1 < |r.Ads()| == |s.Ads()|
            && r.Ads()[k].basePeriodId in r.log.base && r.Ads()[k + 1].basePeriodId in r.log.base
            && StartOf(r, k + 1) == StartOf(r, k) + s.Ads()[k].duration + Shift(r, k + 1) - Shift(r, k)
            && (StartOf(r, k + 1) == StartOf(r, k) + s.Ads()[k].duration <==> Shift(r, k + 1) == Shift(r, k))
  {
    hide Ledger, Run, AllFit;
    RunLaid(s, mpds);
  }

  // ----- An ad that joins while the last one waits -----------------------------------------------

  /** Either ad n is still to have its turn and d has been discarded so far, or that much had been
      discarded when its turn came. */
  ghost predicate Owes(s: Placing, n: nat, d: nat) {
    n < |s.Ads()| && if |s.log.late| <= n then s.log.discarded == d else s.log.late[n] == d
  }

  lemma {:induction false} StepOwes(s: Placing, delta: nat, n: nat, d: nat)
    requires Ledger(s, delta) && !s.log.ended && Ready(s) && 0 < delta <= s.Data(s.openPeriodId).duration &&
               Owes(s, n, d)
    ensures Owes(FillStep(s, delta).next, n, d)
  {
    hide Balanced, OpenCounts, Placed;
  }

  lemma {:induction false} FillOwes(s: Placing, delta: nat, n: nat, d: nat)
    requires Ledger(s, delta) && !s.log.ended && Ready(s) && delta <= s.Data(s.openPeriodId).duration && Owes(s, n, d)
    ensures Owes(Fill(s, delta), n, d)
    decreases |s.Ads()| - s.curAdIdx
  {
    hide FillStep, Ledger, Owes, Punctual, SameAds;
    if delta > 0 {
      StepKeeps(s, delta);
      StepOwes(s, delta, n, d);
      var step := FillStep(s, delta);
      if step.more {
        FillOwes(step.next, step.rest, n, d);
      }
    }
  }

  lemma {:induction false} ReceiveOwes(s: Placing, p: Period, n: nat, d: nat)
    requires Ledger(s, 0) && !s.log.ended && Ready(s) && Owes(s, n, d)
    ensures Owes(Receive(s, p), n, d)
  {
    hide Ledger, Fill;
    var (delta, endNumber) := NewContent(p, 0, s.curEndNumber);
    CountKeeps(s, delta, endNumber);
    FillOwes(Count(s, delta, endNumber), delta, n, d);
  }

  lemma {:induction false} PlaceOverOwes(s: Placing, mpd: seq<Period>, i: nat, found: bool, n: nat, d: nat)
    requires Ledger(s, 0) && (s.Done() || Ready(s)) && i <= |mpd| && Fits(s, mpd, i, found) && Owes(s, n, d)
    ensures Owes(PlaceOver(s, mpd, i, found), n, d)
    decreases |mpd| - i
  {
    hide Fill, Count, Placed, Ledger, Punctual, Receive;
    if i < |mpd| && !s.Done() {
      LedgerOpen(s);
      if mpd[i].id == s.openPeriodId {
        ReceiveKeeps(s, mpd[i]);
        ReceiveOwes(s, mpd[i], n, d);
        PlaceOverOwes(Receive(s, mpd[i]), mpd, i + 1, true, n, d);
      } else if found && mpd[i].duration > 0 {
        OpenKeeps(s, mpd[i].id);
        var u := Open(s, mpd[i].id);
        ReceiveKeeps(u, mpd[i]);
        ReceiveOwes(u, mpd[i], n, d);
        var r := Receive(u, mpd[i]);
        forall b | i + 1 <= b < |mpd| ensures Unseen(r, mpd[b].id) {
          assert Unseen(s, mpd[b].id) && mpd[b].id != mpd[i].id;
        }
        PlaceOverOwes(r, mpd, i + 1, true, n, d);
      } else {
        PlaceOverOwes(s, mpd, i + 1, found, n, d);
      }
    }
  }

  lemma {:induction false} RunOwes(s: Placing, mpds: seq<seq<Period>>, n: nat, d: nat)
    requires Ledger(s, 0) && (s.Done() || Ready(s)) && AllFit(s, mpds) && Owes(s, n, d)
    ensures Owes(Run(s, mpds), n, d)
    decreases |mpds|
  {
    hide Ledger, Punctual, Accounted, AdjustEnd, PlaceOver, Fits, SameAds;
    if mpds != [] {
      var w := PlaceOver(s, mpds[0], 0, false);
      PlaceOverKeeps(s, mpds[0], 0, false);
      PlaceOverOwes(s, mpds[0], 0, false, n, d);
      FilledMeans(s, w);
      LedgerAccounted(w);
      var (u, over) := Refresh(s, mpds[0]);
      if w.Done() {
        AdjustAccounted(w, mpds[0]);
      }
      if !over {
        RunOwes(u, mpds[1..], n, d);
      }
    }
  }

  function Append(b: AdBreak, ad: AdNode): AdBreak {
    b.(ads := b.ads + [ad], adsDuration := b.adsDuration + ad.duration)
  }

  /** An ad joins the break being placed. */
  function Joined(s: Placing, ad: AdNode): Placing {
    s.(brk := Append(s.brk, ad))
  }

  /** An ad joining the break being placed keeps the ledger, and the ads on time if nothing was
      discarded and the break did not end before. */
  lemma {:induction false} AppendKeeps(s: Placing, ad: AdNode)
    requires Ledger(s, 0) && ad.basePeriodId == ""
    ensures var u := Joined(s, ad);
            && Ledger(u, 0) && (s.Done() || Ready(s) ==> u.Done() || Ready(u))
            && (Punctual(s) && s.log.discarded == 0 && !s.log.ended ==> Punctual(u))
  {
    var u := Joined(s, ad);
    forall n | 0 <= n <= |s.Ads()| ensures Sum(u.Ads(), n) == Sum(s.Ads(), n) {
      SumSame(s.Ads(), u.Ads(), n);
    }
    forall k | 0 <= k < Started(u) ensures Placed(u, k) {
      assert Placed(s, k);
    }
  }

  /** The content discarded while the last ad waits, up to now: nothing before its turn. */
  function Waited(s: Placing): int {
    var n := |s.Ads()|;
    if 0 < n <= |s.log.late| then s.log.discarded - s.log.late[n - 1] else 0
  }

  /** It is the content received beyond the place the last ad's cursor has reached. */
  lemma {:induction false} WaitedIsUnused(s: Placing)
    requires Ledger(s, 0) && !s.log.ended && s.curAdIdx == |s.Ads()| - 1 && s.Ads()[s.curAdIdx].basePeriodId != ""
    ensures s.openPeriodId in s.log.base && s.Ads()[s.curAdIdx].basePeriodId in s.log.base
    ensures var cursor := StartOf(s, s.curAdIdx) - Shift(s, s.curAdIdx) + s.adNextOffset;
            Waited(s) == s.log.base[s.openPeriodId] + s.Data(s.openPeriodId).duration - s.Held(s.openPeriodId) - cursor
  {
    assert Placed(s, s.curAdIdx);
  }

  lemma {:induction false} JoinedOwes(s: Placing, ad: AdNode)
    requires Ledger(s, 0) && ad.basePeriodId == "" && s.Ads() != []
    ensures var n, d := |s.Ads()|, s.log.discarded;
            Owes(Joined(s, ad), n, d) && Owes(Joined(s, ad), n - 1, d - Waited(s)) && 0 <= Waited(s) <= d
  {
  }

  /** An ad that joins as the last one: after any run of refreshes in which it has started, it starts
      where the ad before it ends, late by exactly what was discarded while that one waited as the last ad,
      and by as much as its period is shifted more than the other's. */
  lemma {:induction false} JoinedAdIsLate(s: Placing, ad: AdNode, mpds: seq<seq<Period>>)
    requires Ledger(s, 0) && ad.basePeriodId == "" && s.Ads() != []
    requires var u := Joined(s, ad); (u.Done() || Ready(u)) && AllFit(u, mpds) && |s.Ads()| < Started(Run(u, mpds))
    ensures var r, n := Run(Joined(s, ad), mpds), |s.Ads()|;
            && n < |r.Ads()| && r.Ads()[n - 1].basePeriodId in r.log.base && r.Ads()[n].basePeriodId in r.log.base
            && StartOf(r, n) == StartOf(r, n - 1) + s.Ads()[n - 1].duration + Waited(s) + Shift(r, n) - Shift(r, n - 1)
            && (StartOf(r, n) == StartOf(r, n - 1) + s.Ads()[n - 1].duration <==>
                  Waited(s) + Shift(r, n) == Shift(r, n - 1))
  {
    hide Run, AllFit, Ledger, Balanced, OpenCounts, Owes, Waited;
    var u, n := Joined(s, ad), |s.Ads()|;
    AppendKeeps(s, ad);
    JoinedOwes(s, ad);
    RunAccounted(u, mpds);
    RunOwes(u, mpds, n, s.log.discarded);
    RunOwes(u, mpds, n - 1, s.log.discarded - Waited(s));
    OwedStarts(Run(u, mpds), n, s.log.discarded, s.log.discarded - Waited(s));
  }

  lemma {:induction false} OwedStarts(r: Placing, n: nat, d: nat, e: nat)
    requires InTurn(r) && 0 < n < Started(r) && Owes(r, n, d) && Owes(r, n - 1, e)
    ensures n < |r.Ads()| && r.Ads()[n - 1].basePeriodId in r.log.base && r.Ads()[n].basePeriodId in r.log.base
    ensures StartOf(r, n) == StartOf(r, n - 1) + r.Ads()[n - 1].duration + d - e + Shift(r, n) - Shift(r, n - 1)
  {
    assert Placed(r, n) && Placed(r, n - 1);
  }

  /** A break with one ad of 4 s, before its first content. */
  const ONE_AD :=
    Placing(AdBreak(8000, [AdNode(4000, false, "p", 0)], "", 0, 4000, false),
            map["p" := PeriodData(false, "p", 0, map[0 := AdOnPeriod(0, 0)])],
            "p", "p", 0, 0, 0, Log(map["p" := 0], 0, 0, false, 0, [0], map["p" := 0], {"p"}))

  const LISTING_1 := Period("p", 3000, 1, [3000])
  const LISTING_2 := Period("p", 4500, 1, [3000, 1500])
  const LISTING_3 := Period("p", 9500, 1, [3000, 1500, 5000])

  /** Content of 3 s and then of 1.5 s: too little is left to end the break, and the 1.5 s are lost. */
  lemma {:induction false} LastAdWaits()
    ensures Ready(ONE_AD) && Ready(Receive(ONE_AD, LISTING_1))
    ensures var w := Receive(Receive(ONE_AD, LISTING_1), LISTING_2);
            && Ready(w) && Waited(w) == 1500 && w.openPeriodId == "p" && w.Ads() == ONE_AD.Ads() && w.log.late == [0]
            && w.curAdIdx == 0 && w.adNextOffset == 3000 && w.curEndNumber == 2
            && w.Data("p") == PeriodData(false, "p", 4500, map[0 := AdOnPeriod(0, 0)])
  {
    var p, q := LISTING_1, LISTING_2;
    assert NewContent(p, 1, 1) == (0, 1) && NewContent(p, 0, 0) == (3000, 1);
    var u := Receive(ONE_AD, p);
    assert u == FillStep(Count(ONE_AD, 3000, 1), 3000).next;
    assert NewContent(q, 2, 2) == (0, 2) && NewContent(q, 1, 1) == (1500, 2) && NewContent(q, 0, 1) == (1500, 2);
    assert Receive(u, q) == FillStep(Count(u, 1500, 2), 1500).next;
  }

  /** An ad that joins then starts 5.5 s into the period, 1.5 s after the first one ends. */
  lemma {:induction false} LateAd(w: Placing)
    requires Ready(w) && w.Ads() == ONE_AD.Ads() && w.curAdIdx == 0 && w.adNextOffset == 3000 && w.curEndNumber == 2
    requires w.openPeriodId == "p" && w.Data("p") == PeriodData(false, "p", 4500, map[0 := AdOnPeriod(0, 0)])
    ensures Ready(Joined(w, AdNode(4000, false, "", -1)))
    ensures var r := Receive(Joined(w, AdNode(4000, false, "", -1)), LISTING_3);
            r.Ads() == [AdNode(4000, true, "p", 0), AdNode(4000, true, "p", 5500)]
  {
    var p := LISTING_3;
    assert NewContent(p, 3, 3) == (0, 3) && NewContent(p, 2, 2) == (5000, 3) && NewContent(p, 1, 2) == (5000, 3);
    assert NewContent(p, 0, 2) == (5000, 3);
    var u := Count(Joined(w, AdNode(4000, false, "", -1)), 5000, 3);
    var step := FillStep(u, 5000);
    assert step.more && step.rest == 4000;
    assert Fill(u, 5000) == Fill(step.next, 4000);
  }

  /** Where a break ends, once it is settled and its end period is listed: at a period boundary, or in
      its end period at least 4 s after the beginning and 2 s before the end. It stays open if and only
      if that is the last period and its end, while 4 s or more after the beginning, is too close. */
  lemma {:induction false} EndSettles(s: Placing, mpd: seq<Period>)
    requires s.Done() && Find(mpd, s.brk.endPeriodId, 0) < |mpd|
    ensures var r, p := AdjustEnd(s, mpd), mpd[Find(mpd, s.brk.endPeriodId, 0)];
            && p.id == s.brk.endPeriodId && (exists q :: q in mpd && q.id == r.brk.endPeriodId)
            && (!r.Done() ==>
                  || r.brk.endPeriodOffset == 0
                  || (r.brk.endPeriodId == p.id && 4000 <= r.brk.endPeriodOffset &&
                      r.brk.endPeriodOffset + 2000 <= p.duration))
            && (r.Done() ==> r == s)
            && (r.Done() <==>
                  && Find(mpd, s.brk.endPeriodId, 0) == |mpd| - 1
                  && p.duration - s.brk.endPeriodOffset < 2000 && s.brk.endPeriodOffset >= 4000)
  {
    var i := Find(mpd, s.brk.endPeriodId, 0);
    assert mpd[i] in mpd;
    if i + 1 < |mpd| {
      assert mpd[i + 1] in mpd;
    }
  }

  /** Total duration of the first n periods. */
  function Elapsed(mpd: seq<Period>, n: nat): nat
    requires n <= |mpd|
  {
    if n == 0 then 0 else Elapsed(mpd, n - 1) + mpd[n - 1].duration
  }

  /** Where an offset of a period listed lies in the presentation. */
  function TimeOf(mpd: seq<Period>, id: string, offset: nat): nat {
    Elapsed(mpd, Find(mpd, id, 0)) + offset
  }

  lemma {:induction false} FindAt(mpd: seq<Period>, i: nat, j: nat)
    requires j <= i < |mpd| && Distinct(mpd)
    ensures Find(mpd, mpd[i].id, j) == i
    decreases i - j
  {
    if j < i {
      FindAt(mpd, i, j + 1);
    }
  }

  /** How far the end of a break moves when it is settled: if its period is listed, an end less than 4 s into
      it to the beginning of the period, and another one less than 2 s before its end to the beginning of the
      period listed next. Then the period the break ends in is reset; any other end stays, and nothing else is
      touched. An end in a period that is not listed is settled where it is. */
  lemma {:induction false} EndMoves(s: Placing, mpd: seq<Period>)
    requires s.Done() && Distinct(mpd)
    ensures var r, i, offset := AdjustEnd(s, mpd), Find(mpd, s.brk.endPeriodId, 0), s.brk.endPeriodOffset;
            var moved := TimeOf(mpd, r.brk.endPeriodId, r.brk.endPeriodOffset) - TimeOf(mpd, s.brk.endPeriodId, offset);
            var back := i < |mpd| && offset < 4000;
            var on := i + 1 < |mpd| && offset >= 4000 && mpd[i].duration - offset < 2000;
            && moved == (if back then -(offset as int) else if on then mpd[i].duration - offset else 0)
            && r.brk.endPeriodId == (if on then mpd[i + 1].id else s.brk.endPeriodId)
            && r.periods == (if back || on then s.periods[r.brk.endPeriodId := NO_PERIOD_DATA] else s.periods)
            && r.brk == s.brk.(endPeriodId := r.brk.endPeriodId, endPeriodOffset := r.brk.endPeriodOffset,
                               adjustEndPeriodOffset := r.Done())
            && r == s.(brk := r.brk, periods := r.periods) && (i == |mpd| ==> !r.Done())
  {
    var i := Find(mpd, s.brk.endPeriodId, 0);
    if i + 1 < |mpd| {
      FindAt(mpd, i + 1, 0);
    }
  }

  /** When the end moves back to the beginning of its period, whatever was laid in that period for the break
      ended less than 4 s into it. */
  lemma {:induction false} OnlyOutlierIsLost(s: Placing, k: nat)
    requires Ledger(s, 0) && s.Done() && s.brk.endPeriodOffset < 4000
    requires k < s.curAdIdx && s.Ads()[k].basePeriodId == s.brk.endPeriodId
    ensures s.Ads()[k].basePeriodOffset + s.Ads()[k].duration <= s.brk.endPeriodOffset < 4000
  {
    assert Placed(s, k);
    SumGrows(s.Ads(), k + 1, s.curAdIdx);
  }

  lemma {:induction false} SumGrows(ads: seq<AdNode>, m: nat, n: nat)
    requires m <= n <= |ads|
    ensures Sum(ads, m) <= Sum(ads, n)
    decreases n - m
  {
    if m < n {
      SumGrows(ads, m, n - 1);
    }
  }

  /** A complete break ends, on the content timeline and the shifts of the two periods apart, where its last
      ad ends, late by exactly what was discarded while that one waited. */
  lemma {:induction false} BreakEndsWithLastAd(s: Placing)
    requires Ledger(s, 0) && s.Done() && s.curAdIdx > 0
    ensures s.brk.endPeriodId in s.log.base && s.Ads()[s.curAdIdx - 1].basePeriodId in s.log.base
    ensures var n, id := s.curAdIdx - 1, s.brk.endPeriodId;
            s.log.base[id] + s.brk.endPeriodOffset - s.Held(id) ==
              StartOf(s, n) - Shift(s, n) + s.Ads()[n].duration + s.log.discarded - s.log.late[n]
  {
    assert Placed(s, s.curAdIdx - 1);
  }

  // ----- Content is counted once ---------------------------------------------------------------

  /** Total content of the segments numbered lo, ..., hi-1. */
  function Content(content: int -> nat, lo: int, hi: int): nat
    decreases hi - lo
  {
    if hi <= lo then 0 else content(lo) + Content(content, lo + 1, hi)
  }

  lemma {:induction false} ContentSplit(content: int -> nat, lo: int, mid: int, hi: int)
    requires lo <= mid <= hi
    ensures Content(content, lo, hi) == Content(content, lo, mid) + Content(content, mid, hi)
    decreases mid - lo
  {
    if lo < mid {
      ContentSplit(content, lo + 1, mid, hi);
    }
  }

  /** p lists segments start, start+1, ... of the given content. */
  ghost predicate Shows(p: Period, content: int -> nat) {
    forall i :: 0 <= i < |p.segments| ==> p.segments[i] == content(p.start + i)
  }

  function EndOf(p: Period): nat { p.start + |p.segments| }

  lemma {:induction false} NewContentIs(p: Period, i: nat, curEndNumber: nat, content: int -> nat)
    requires i <= |p.segments| && Shows(p, content)
    ensures NewContent(p, i, curEndNumber).0 == Content(content, Max(curEndNumber + 1, p.start + i), EndOf(p))
    ensures NewContent(p, i, curEndNumber).1 == if i < |p.segments| then Max(curEndNumber, EndOf(p) - 1)
              else curEndNumber
    decreases |p.segments| - i
  {
    if i < |p.segments| {
      NewContentIs(p, i + 1, if p.start + i > curEndNumber then p.start + i else curEndNumber, content);
    }
  }

  /** Two refreshes of one period whose listings overlap or meet: together they count every segment
      numbered above the old end exactly once (a segment numbered 0 is never counted). */
  lemma {:induction false} ContentCountedOnce(p: Period, q: Period, curEndNumber: nat, content: int -> nat)
    requires Shows(p, content) && Shows(q, content) && p.segments != [] && q.segments != []
    requires p.start <= curEndNumber + 1 && q.start <= EndOf(p) <= EndOf(q)
    ensures var (d, e) := NewContent(p, 0, curEndNumber); var (d', e') := NewContent(q, 0, e);
            d + d' == Content(content, curEndNumber + 1, EndOf(q)) && e' == Max(curEndNumber, EndOf(q) - 1)
  {
    NewContentIs(p, 0, curEndNumber, content);
    NewContentIs(q, 0, NewContent(p, 0, curEndNumber).1, content);
    if curEndNumber + 1 <= EndOf(p) {
      ContentSplit(content, curEndNumber + 1, EndOf(p), EndOf(q));
    }
  }
}
