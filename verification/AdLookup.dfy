/** The reverse index from period offsets to ads, and the playback lookup that reads it
    (CheckForAdStart): the lookup inverts the placement. */
module AdLookup {
  import opened AdPlacement
  import opened AdRuns

  /** Every ad lasts at least one alignment bucket. */
  ghost predicate Long(ads: seq<AdNode>) {
    forall k :: 0 <= k < |ads| ==> ads[k].duration >= OFFSET_ALIGN_FACTOR
  }

  /** Ad k is found under its bucket in its period's index, unless that index was reset. */
  ghost predicate Listed(s: Placing, k: nat)
    requires k < |s.Ads()|
  {
    var ad := s.Ads()[k];
    var entries := s.Data(ad.basePeriodId).offset2Ad;
    entries != map[] ==>
      ad.basePeriodOffset >= 0 && Bucket(ad.basePeriodOffset) in entries &&
        entries[Bucket(ad.basePeriodOffset)] == AdOnPeriod(k, 0)
  }

  /** Ad j starts in the period with the given id. */
  predicate StartsIn(s: Placing, j: int, id: string) {
    0 <= j < Started(s) && j < |s.Ads()| && s.Ads()[j].basePeriodId == id && s.Ads()[j].basePeriodOffset >= 0
  }

  /** What a key of a period's index stands for: key 0 the ad playing when the period opened (or
      the one that starts in bucket 0), any other key an ad starting in that bucket. */
  ghost predicate KeyOk(s: Placing, id: string, key: int)
    requires id in s.periods && key in s.periods[id].offset2Ad
  {
    var e := s.periods[id].offset2Ad[key];
    && key >= 0 && e.adIdx <= s.curAdIdx
    && (key > 0 ==> e.adStartOffset == 0 && StartsIn(s, e.adIdx, id) &&
                    Bucket(s.Ads()[e.adIdx].basePeriodOffset) == key)
    && (key == 0 ==> forall j :: StartsIn(s, j, id) ==>
                                 e.adIdx <= j && (e.adIdx == j ==> Bucket(s.Ads()[j].basePeriodOffset) == 0))
  }

  /** The index of every period of the break, with rest milliseconds of the open period's content
      still to be used. */
  ghost predicate Catalog(s: Placing, rest: nat) {
    && (forall k :: 0 <= k < Started(s) && k < |s.Ads()| ==> Listed(s, k))
    && (forall id :: id in s.log.blank ==> id in s.log.base)
    && (forall id, key :: id in s.log.blank && id in s.periods && key in s.periods[id].offset2Ad ==> KeyOk(s, id, key))
    && (forall id :: id in s.log.blank && id in s.periods && 0 in s.periods[id].offset2Ad ==> Entered(s, id, rest))
    && Untied(s) && OpenIndexed(s)
  }

  /** The ad playing when a period opened. If it has no place yet, nothing was received that is not still
      to be used. If it started in an earlier period, the content it is laid over came no later than the
      period opened; and in a period tied to this break its entry says how far it had got, but for what was
      discarded meanwhile. */
  ghost predicate Entered(s: Placing, id: string, rest: nat)
    requires id in s.log.base && id in s.periods && 0 in s.periods[id].offset2Ad
  {
    var e, tied := s.periods[id].offset2Ad[0], s.periods[id].adBreakId == s.breakId;
    && (e.adIdx == s.curAdIdx == Started(s) && !s.log.ended ==>
          s.log.base[id] == s.log.received - rest && s.Held(id) == 0 && (tied ==> e.adStartOffset == 0))
    && (e.adIdx < Started(s) && e.adIdx < |s.Ads()| && !StartsIn(s, e.adIdx, id) ==>
          && s.Ads()[e.adIdx].basePeriodId in s.log.base
          && var run := s.log.base[id] - StartOf(s, e.adIdx) + Shift(s, e.adIdx);
             run >= 0 && (tied ==> e.adStartOffset <= run <= e.adStartOffset + s.log.discarded))
  }

  /** An open period not yet tied to the break has received no content, and at most the first ad of the break
      starts in it, at its beginning. */
  ghost predicate Untied(s: Placing) {
    s.Data(s.openPeriodId).adBreakId == "" ==>
      && s.Data(s.openPeriodId).duration == s.Held(s.openPeriodId)
      && (s.openPeriodId in s.log.blank ==> s.Held(s.openPeriodId) == 0)
      && forall j :: StartsIn(s, j, s.openPeriodId) ==>
           j == 0 && s.curAdIdx == 0 && s.adNextOffset == 0 && s.Ads()[j].basePeriodOffset == 0
  }

  /** An open period tied to a break in which an ad starts has an index. */
  ghost predicate OpenIndexed(s: Placing) {
    var data := s.Data(s.openPeriodId);
    data.adBreakId != "" && data.offset2Ad == map[] ==> forall j :: !StartsIn(s, j, s.openPeriodId)
  }

  /** Two ads of one period start at least one ad apart. */
  lemma {:induction false} StartsApart(s: Placing, j: nat, k: nat)
    requires InTurn(s) && j < k < Started(s) && s.Ads()[j].basePeriodId == s.Ads()[k].basePeriodId
    ensures s.Ads()[k].basePeriodOffset >= s.Ads()[j].basePeriodOffset + s.Ads()[j].duration
  {
    assert Placed(s, j) && Placed(s, k);
    SumGrows(s.Ads(), j + 1, k);
  }

  lemma {:induction false} BucketsApart(a: int, b: int)
    requires 0 <= a && a + OFFSET_ALIGN_FACTOR <= b
    ensures Bucket(a) < Bucket(b)
  {
  }

  /** The current ad gets its place in the open period, with delta of its content still to be used. */
  ghost predicate Starting(s: Placing, delta: nat) {
    && Ledger(s, delta) && !s.log.ended && 0 < delta <= s.Data(s.openPeriodId).duration
    && Catalog(s, delta) && Long(s.Ads()) && s.Data(s.openPeriodId).adBreakId != ""
    && s.Ads()[s.curAdIdx].basePeriodId == ""
  }

  /** The ads placed before in the open period start in earlier buckets. */
  lemma {:induction false} EarlierBuckets(s: Placing, delta: nat)
    requires Starting(s, delta)
    ensures var u := StartAd(s, delta);
            forall j :: 0 <= j < s.curAdIdx && StartsIn(u, j, s.openPeriodId) ==>
              Bucket(u.Ads()[j].basePeriodOffset) < Bucket(s.Data(s.openPeriodId).duration - delta)
  {
    hide Catalog;
    var u, open := StartAd(s, delta), s.openPeriodId;
    StartKeeps(s, delta);
    forall j | 0 <= j < s.curAdIdx && StartsIn(u, j, open)
      ensures Bucket(u.Ads()[j].basePeriodOffset) < Bucket(s.Data(open).duration - delta)
    {
      assert Placed(u, j);
      StartsApart(u, j, s.curAdIdx);
      BucketsApart(u.Ads()[j].basePeriodOffset, s.Data(open).duration - delta);
    }
  }

  lemma {:induction false} StartListed(s: Placing, delta: nat)
    requires Starting(s, delta)
    ensures var u := StartAd(s, delta); forall k :: 0 <= k < Started(u) && k < |u.Ads()| ==> Listed(u, k)
  {
    var u := StartAd(s, delta);
    EarlierBuckets(s, delta);
    forall k | 0 <= k < Started(u) && k < |u.Ads()| ensures Listed(u, k) {
      if k < s.curAdIdx {
        assert Listed(s, k) && Placed(s, k);
        if s.Ads()[k].basePeriodId == s.openPeriodId {
          assert StartsIn(s, k, s.openPeriodId);
        }
      }
    }
  }

  lemma {:induction false} StartKeys(s: Placing, delta: nat, id: string, key: int)
    requires Starting(s, delta) && id in s.log.blank
    ensures var u := StartAd(s, delta); id in u.periods && key in u.periods[id].offset2Ad ==> KeyOk(u, id, key)
  {
    var u := StartAd(s, delta);
    EarlierBuckets(s, delta);
    if id in u.periods && key in u.periods[id].offset2Ad {
      if id != s.openPeriodId || key != Bucket(s.Data(s.openPeriodId).duration - delta) {
        assert KeyOk(s, id, key);
      }
    }
  }

  /** Giving the current ad its place keeps the index. */
  lemma {:induction false} StartCatalog(s: Placing, delta: nat)
    requires Ledger(s, delta) && !s.log.ended && 0 < delta <= s.Data(s.openPeriodId).duration
    requires Catalog(s, delta) && Long(s.Ads()) && s.Data(s.openPeriodId).adBreakId != ""
    ensures Catalog(StartAd(s, delta), delta)
  {
    hide KeyOk, Listed;
    if s.Ads()[s.curAdIdx].basePeriodId == "" {
      var u := StartAd(s, delta);
      StartListed(s, delta);
      assert Bucket(s.Data(s.openPeriodId).duration - delta) in u.Data(s.openPeriodId).offset2Ad;
      forall id, key | id in u.log.blank && id in u.periods && key in u.periods[id].offset2Ad
                         ensures KeyOk(u, id, key) {
        StartKeys(s, delta, id, key);
      }
    }
  }

  /** The current ad is complete, the content is used up, or the last ad waits: the index keeps. */
  lemma {:induction false} MoveCatalog(s: Placing, u: Placing, rest: nat, rest': nat)
    requires Catalog(s, rest) && s.curAdIdx < |s.Ads()| && s.Ads()[s.curAdIdx].basePeriodId != ""
    requires |u.Ads()| == |s.Ads()| && u.periods == s.periods &&
               u.log == s.log.(discarded := u.log.discarded, late := u.log.late, ended := u.log.ended,
                               leftover := u.log.leftover)
    requires u.openPeriodId == s.openPeriodId
    requires s.curAdIdx <= u.curAdIdx && Started(u) == Started(s) && u.breakId == s.breakId
    requires s.log.discarded <= u.log.discarded
    requires forall k :: 0 <= k < |s.Ads()| ==>
               u.Ads()[k].basePeriodId == s.Ads()[k].basePeriodId &&
                 u.Ads()[k].basePeriodOffset == s.Ads()[k].basePeriodOffset
    requires s.Data(s.openPeriodId).adBreakId != "" && s.openPeriodId in s.log.base
    ensures Catalog(u, rest')
  {
    assert u.Data(u.openPeriodId) == s.Data(s.openPeriodId);
    forall k | 0 <= k < Started(u) && k < |u.Ads()| ensures Listed(u, k) {
      assert Listed(s, k);
    }
    forall id, key | id in u.log.blank && id in u.periods && key in u.periods[id].offset2Ad ensures KeyOk(u, id, key) {
      assert KeyOk(s, id, key);
      forall j | StartsIn(u, j, id) ensures StartsIn(s, j, id) {
      }
      if key > 0 {
        assert StartsIn(s, s.periods[id].offset2Ad[key].adIdx, id);
      }
    }
    forall j | StartsIn(u, j, s.openPeriodId) ensures StartsIn(s, j, s.openPeriodId) {
    }
  }

  /** The open period is tied to a break. */
  predicate Tied(s: Placing) {
    s.openPeriodId in s.periods && s.Data(s.openPeriodId).adBreakId != ""
  }

  lemma {:induction false} StepCatalog(s: Placing, delta: nat)
    requires Ledger(s, delta) && !s.log.ended && Ready(s) && 0 < delta <= s.Data(s.openPeriodId).duration
    requires Catalog(s, delta) && Long(s.Ads()) && Tied(s)
    ensures var r := FillStep(s, delta); Catalog(r.next, r.rest) && Tied(r.next)
  {
    var u := StartAd(s, delta);
    StartCatalog(s, delta);
    StartKeeps(s, delta);
    var r := FillStep(s, delta);
    assert r.next.periods == u.periods && Tied(r.next);
    hide Catalog;
    MoveCatalog(u, r.next, delta, r.rest);
  }

  lemma {:induction false} LongSame(a: seq<AdNode>, b: seq<AdNode>)
    requires Long(a) && SameAds(a, b)
    ensures Long(b)
  {
  }

  /** Filling keeps the index. */
  lemma {:induction false} FillCatalog(s: Placing, delta: nat)
    requires Ledger(s, delta) && !s.log.ended && Ready(s) && delta <= s.Data(s.openPeriodId).duration
    requires Catalog(s, delta) && Long(s.Ads()) && Tied(s)
    ensures Catalog(Fill(s, delta), 0) && Tied(Fill(s, delta))
    decreases |s.Ads()| - s.curAdIdx
  {
    if delta > 0 {
      StepCatalog(s, delta);
      StepKeeps(s, delta);
      hide FillStep, Catalog, Ledger, Tied;
      var step := FillStep(s, delta);
      if step.more {
        LongSame(s.Ads(), step.next.Ads());
        FillCatalog(step.next, step.rest);
      }
    }
  }

  /** Every ad that has its place is laid over content received. */
  lemma {:induction false} StartsReceived(s: Placing, k: nat)
    requires Ledger(s, 0) && k < Started(s)
    ensures k < |s.Ads()| && s.Ads()[k].basePeriodId in s.log.base && StartOf(s, k) - Shift(s, k) <= s.log.received
    ensures k == s.curAdIdx && !s.log.ended ==>
              s.log.received - StartOf(s, k) + Shift(s, k) == s.adNextOffset + s.log.discarded - s.log.late[k]
  {
    assert Placed(s, k);
    SumGrows(s.Ads(), k, s.curAdIdx);
  }

  lemma {:induction false} LedgerStarted(s: Placing)
    requires Ledger(s, 0)
    ensures 0 < Started(s)
  {
  }

  lemma {:induction false} CountEntered(s: Placing, delta: nat, endNumber: nat, id: string)
    requires Ledger(s, 0) && !s.log.ended && Catalog(s, 0) && s.breakId != ""
    ensures var u := Count(s, delta, endNumber);
            id in u.log.blank && id in u.periods && 0 in u.periods[id].offset2Ad ==> Entered(u, id, delta)
  {
    hide KeyOk, Listed, OpenIndexed, Untied, Balanced, Placed;
    var u := Count(s, delta, endNumber);
    if id in u.log.blank && id in u.periods && 0 in u.periods[id].offset2Ad {
      forall j ensures StartsIn(u, j, id) <==> StartsIn(s, j, id) {
      }
      if id != s.openPeriodId || s.Data(id).adBreakId != "" {
        assert Entered(s, id, 0);
      } else {
        TiedEntered(s, delta, endNumber);
      }
    }
  }

  /** The entry made when the open period is tied says how far the current ad has got. */
  lemma {:induction false} TiedEntered(s: Placing, delta: nat, endNumber: nat)
    requires Ledger(s, 0) && !s.log.ended && Catalog(s, 0) && s.breakId != "" && s.Data(s.openPeriodId).adBreakId == ""
    requires s.openPeriodId in s.log.blank
    ensures var u := Count(s, delta, endNumber); Entered(u, s.openPeriodId, delta)
  {
    hide KeyOk, Listed, OpenIndexed, Entered;
    var u := Count(s, delta, endNumber);
    assert u.periods[s.openPeriodId].offset2Ad[0] == AdOnPeriod(s.curAdIdx, s.adNextOffset);
    if s.curAdIdx < Started(s) {
      StartsReceived(s, s.curAdIdx);
    }
    EnteredBy(u, s.openPeriodId, delta, s.curAdIdx, s.adNextOffset);
  }

  lemma {:induction false} EnteredBy(u: Placing, id: string, rest: nat, adIdx: nat, adStartOffset: nat)
    requires id in u.log.base && id in u.periods && 0 in u.periods[id].offset2Ad
    requires u.periods[id].offset2Ad[0] == AdOnPeriod(adIdx, adStartOffset)
    requires adIdx == u.curAdIdx == Started(u) && !u.log.ended ==>
               u.log.base[id] == u.log.received - rest && u.Held(id) == 0 && adStartOffset == 0
    requires adIdx < Started(u) && adIdx < |u.Ads()| ==>
               && u.Ads()[adIdx].basePeriodId in u.log.base
               && 0 <= u.log.base[id] - StartOf(u, adIdx) + Shift(u, adIdx) - adStartOffset <= u.log.discarded
    ensures Entered(u, id, rest)
  {
  }

  lemma {:induction false} CountKeys(s: Placing, delta: nat, endNumber: nat, id: string, key: int)
    requires Ledger(s, 0) && !s.log.ended && Catalog(s, 0) && s.breakId != ""
    ensures var u := Count(s, delta, endNumber);
            id in u.log.blank && id in u.periods && key in u.periods[id].offset2Ad ==> KeyOk(u, id, key)
  {
    hide Listed, Entered, Balanced, Placed;
    var u := Count(s, delta, endNumber);
    if id in u.log.blank && id in u.periods && key in u.periods[id].offset2Ad {
      forall j ensures StartsIn(u, j, id) <==> StartsIn(s, j, id) {
      }
      if id in s.periods && key in s.periods[id].offset2Ad {
        assert KeyOk(s, id, key);
      }
    }
  }

  lemma {:induction false} CountListed(s: Placing, delta: nat, endNumber: nat, k: nat)
    requires Ledger(s, 0) && !s.log.ended && Catalog(s, 0) && s.breakId != "" && k < Started(s) && k < |s.Ads()|
    ensures Listed(Count(s, delta, endNumber), k)
  {
    hide KeyOk, Entered;
    assert Listed(s, k) && Placed(s, k);
    if s.Ads()[k].basePeriodId == s.openPeriodId && s.Data(s.openPeriodId).adBreakId == "" {
      assert StartsIn(s, k, s.openPeriodId);
    }
  }

  /** Counting the open period's new content keeps the index. */
  lemma {:induction false} CountCatalog(s: Placing, delta: nat, endNumber: nat)
    requires Ledger(s, 0) && !s.log.ended && Catalog(s, 0) && s.breakId != ""
    ensures Catalog(Count(s, delta, endNumber), delta) && Tied(Count(s, delta, endNumber))
  {
    hide KeyOk, Listed, Entered, Ledger;
    var u, open := Count(s, delta, endNumber), s.openPeriodId;
    forall j ensures StartsIn(u, j, open) <==> StartsIn(s, j, open) {
    }
    assert s.Data(open).adBreakId == "" ==> 0 in u.Data(open).offset2Ad;
    forall k | 0 <= k < Started(u) && k < |u.Ads()| ensures Listed(u, k) {
      CountListed(s, delta, endNumber, k);
    }
    forall id, key | id in u.log.blank && id in u.periods && key in u.periods[id].offset2Ad ensures KeyOk(u, id, key) {
      CountKeys(s, delta, endNumber, id, key);
    }
    forall id | id in u.log.blank && id in u.periods && 0 in u.periods[id].offset2Ad ensures Entered(u, id, delta) {
      CountEntered(s, delta, endNumber, id);
    }
  }

  /** No ad of the break starts in a period it has not opened. */
  lemma {:induction false} StartsElsewhere(s: Placing, id: string, j: int)
    requires Ledger(s, 0) && id !in s.log.base
    ensures !StartsIn(s, j, id)
  {
    if 0 <= j < Started(s) {
      assert Placed(s, j);
    }
  }

  lemma {:induction false} OpenListed(s: Placing, id: string, k: nat)
    requires Ledger(s, 0) && Catalog(s, 0) && id !in s.log.base && k < Started(s) && k < |s.Ads()|
    ensures Listed(Open(s, id), k)
  {
    hide KeyOk, Entered;
    assert Listed(s, k) && Placed(s, k);
  }

  lemma {:induction false} OpenKeys(s: Placing, id: string, i: string, key: int)
    requires Ledger(s, 0) && Catalog(s, 0) && id !in s.log.base && id != s.openPeriodId
    ensures var u := Open(s, id); i in u.log.blank && i in u.periods && key in u.periods[i].offset2Ad ==>
                                  KeyOk(u, i, key)
  {
    hide Listed, Entered, Ledger;
    var u := Open(s, id);
    if i in u.log.blank && i in u.periods && key in u.periods[i].offset2Ad {
      forall j ensures StartsIn(u, j, i) <==> StartsIn(s, j, i) {
      }
      if i == id {
        forall j ensures !StartsIn(s, j, id) {
          StartsElsewhere(s, id, j);
        }
        assert key in {0};
      } else {
        assert KeyOk(s, i, key);
      }
    }
  }

  lemma {:induction false} OpenEntered(s: Placing, id: string, i: string)
    requires Ledger(s, 0) && !s.log.ended && Catalog(s, 0) && id !in s.log.base && id != s.openPeriodId
    ensures var u := Open(s, id);
            i in u.log.blank && i in u.periods && 0 in u.periods[i].offset2Ad ==> Entered(u, i, 0)
  {
    hide Listed, KeyOk, Ledger;
    var u := Open(s, id);
    if i in u.log.blank && i in u.periods && 0 in u.periods[i].offset2Ad {
      forall j ensures StartsIn(u, j, i) <==> StartsIn(s, j, i) {
      }
      if i == id {
        LedgerStarted(s);
        StartsReceived(s, 0);
      } else {
        if u.periods[i].offset2Ad[0].adIdx < Started(s) {
          StartsReceived(s, u.periods[i].offset2Ad[0].adIdx);
        }
        assert Entered(s, i, 0);
      }
    }
  }

  /** Opening a new period keeps the index. */
  lemma {:induction false} OpenCatalog(s: Placing, id: string)
    requires Ledger(s, 0) && !s.log.ended && Catalog(s, 0) && Unseen(s, id) && s.openPeriodId in s.periods
    ensures Catalog(Open(s, id), 0)
  {
    hide KeyOk, Listed, Entered, Balanced, InTurn;
    var u := Open(s, id);
    forall k | 0 <= k < Started(u) && k < |u.Ads()| ensures Listed(u, k) {
      OpenListed(s, id, k);
    }
    forall i, key | i in u.log.blank && i in u.periods && key in u.periods[i].offset2Ad ensures KeyOk(u, i, key) {
      OpenKeys(s, id, i, key);
    }
    forall i | i in u.log.blank && i in u.periods && 0 in u.periods[i].offset2Ad ensures Entered(u, i, 0) {
      OpenEntered(s, id, i);
    }
    forall j ensures !StartsIn(u, j, id) {
      StartsElsewhere(s, id, j);
    }
  }

  lemma {:induction false} ReceiveCatalog(s: Placing, p: Period)
    requires Ledger(s, 0) && !s.log.ended && Ready(s) && Catalog(s, 0) && Long(s.Ads()) && s.breakId != ""
    ensures Catalog(Receive(s, p), 0)
  {
    var (delta, endNumber) := NewContent(p, 0, s.curEndNumber);
    CountKeeps(s, delta, endNumber);
    CountCatalog(s, delta, endNumber);
    hide Catalog, Ledger, Tied, Long;
    FillCatalog(Count(s, delta, endNumber), delta);
  }

  /** Placing over an MPD keeps the index. */
  lemma {:induction false} PlaceOverCatalog(s: Placing, mpd: seq<Period>, i: nat, found: bool)
    requires Ledger(s, 0) && (s.Done() || Ready(s)) && i <= |mpd| && Fits(s, mpd, i, found)
    requires Catalog(s, 0) && Long(s.Ads()) && s.breakId != ""
    ensures Catalog(PlaceOver(s, mpd, i, found), 0)
    decreases |mpd| - i
  {
    hide Fill, Count, Placed, Ledger, Punctual, Receive, Catalog, Long;
    if i < |mpd| && !s.Done() {
      LedgerOpen(s);
      if mpd[i].id == s.openPeriodId {
        ReceiveKeeps(s, mpd[i]);
        ReceiveCatalog(s, mpd[i]);
        var r := Receive(s, mpd[i]);
        LongSame(s.Ads(), r.Ads());
        PlaceOverCatalog(r, mpd, i + 1, true);
      } else if found && mpd[i].duration > 0 {
        OpenKeeps(s, mpd[i].id);
        OpenCatalog(s, mpd[i].id);
        var u := Open(s, mpd[i].id);
        ReceiveKeeps(u, mpd[i]);
        ReceiveCatalog(u, mpd[i]);
        var r := Receive(u, mpd[i]);
        forall b | i + 1 <= b < |mpd| ensures Unseen(r, mpd[b].id) {
          assert Unseen(s, mpd[b].id) && mpd[b].id != mpd[i].id;
        }
        LongSame(s.Ads(), r.Ads());
        PlaceOverCatalog(r, mpd, i + 1, true);
      } else {
        PlaceOverCatalog(s, mpd, i + 1, found);
      }
    }
  }

  // ----- The playback lookup -------------------------------------------------------------------

  /** Milliseconds of an offset in seconds, truncated. */
  function Milliseconds(offset: real): (r: nat)
    requires offset >= 0.0
    ensures r as real / 1000.0 <= offset < (r + 1) as real / 1000.0
  {
    (offset * 1000.0).Floor
  }

  /** The ad that starts around the given offset, or -1: the entry of the offset's bucket, or failing
      that of the next one, if an ad starts there. */
  function SeamlessIdx(data: PeriodData, key: nat): int {
    var floorKey := Bucket(key);
    var k := if floorKey in data.offset2Ad then floorKey else floorKey + OFFSET_ALIGN_FACTOR;
    if k in data.offset2Ad && data.offset2Ad[k].adStartOffset == 0 then data.offset2Ad[k].adIdx else -1
  }

  /** An entry answers for an offset if an ad begins with it, and it stands in the offset's bucket of two
      seconds, or in the next one if there is none in that. */
  ghost predicate Answers(offset2Ad: map<int, AdOnPeriod>, key: nat, k: int) {
    && k in offset2Ad && offset2Ad[k].adStartOffset == 0 && k % 2000 == 0
    && (k <= key < k + 2000 || (key < k <= key + 2000 && k - 2000 !in offset2Ad))
  }

  lemma {:induction false} SeamlessAnswers(data: PeriodData, key: nat)
    ensures var idx := SeamlessIdx(data, key);
            && (idx == -1 <==> forall k :: !Answers(data.offset2Ad, key, k))
            && forall k :: Answers(data.offset2Ad, key, k) ==> idx == data.offset2Ad[k].adIdx
  {
    var floorKey := Bucket(key);
    forall k | Answers(data.offset2Ad, key, k) ensures k == floorKey || k == floorKey + 2000 {
      OnlyBucket(key, k);
    }
    assert floorKey in data.offset2Ad && data.offset2Ad[floorKey].adStartOffset == 0 ==>
             Answers(data.offset2Ad, key, floorKey);
    var next := floorKey + 2000;
    assert floorKey !in data.offset2Ad && next in data.offset2Ad && data.offset2Ad[next].adStartOffset == 0 ==>
             Answers(data.offset2Ad, key, next);
  }

  lemma {:induction false} OnlyBucket(key: nat, k: int)
    requires k % 2000 == 0
    ensures k <= key < k + 2000 ==> k == Bucket(key)
    ensures key < k <= key + 2000 ==> k == Bucket(key) + 2000
  {
  }

  /** What a seamless lookup at an offset of a period answers: the break and the ad. The break is left
      as it was given if the period belongs to none, and is "" behind the end of the break. */
  function SeamlessAd(breaks: map<string, AdBreak>, data: PeriodData, id: string, key: nat,
                      breakId0: string): (string, int) {
    if data.adBreakId == "" || data.adBreakId !in breaks then (breakId0, -1)
    else
      var b, k := breaks[data.adBreakId], SeamlessIdx(data, key);
      (if k == -1 && b.endPeriodId == id && key >= b.endPeriodOffset then "" else data.adBreakId, k)
  }

  /** Every ad that has its place in a period whose index was not reset is found at every offset of the
      bucket it starts in. */
  ghost predicate Findable(s: Placing) {
    forall k, key: nat ::
      0 <= k < Started(s) && k < |s.Ads()| && s.Data(s.Ads()[k].basePeriodId).offset2Ad != map[] &&
      s.Ads()[k].basePeriodOffset >= 0 && Bucket(key) == Bucket(s.Ads()[k].basePeriodOffset)
      ==> SeamlessIdx(s.Data(s.Ads()[k].basePeriodId), key) == k
  }

  lemma {:induction false} CatalogFindable(s: Placing)
    requires Catalog(s, 0)
    ensures Findable(s)
  {
    forall k, key: nat |
      && 0 <= k < Started(s) && k < |s.Ads()| && s.Data(s.Ads()[k].basePeriodId).offset2Ad != map[]
      && s.Ads()[k].basePeriodOffset >= 0 && Bucket(key) == Bucket(s.Ads()[k].basePeriodOffset)
      ensures SeamlessIdx(s.Data(s.Ads()[k].basePeriodId), key) == k
    {
      assert Listed(s, k);
    }
  }

  lemma {:induction false} AdjustFindable(s: Placing, mpd: seq<Period>)
    requires Findable(s)
    ensures Findable(AdjustEnd(s, mpd))
  {
    var r := AdjustEnd(s, mpd);
    assert Started(r) == Started(s) && r.Ads() == s.Ads();
    forall id ensures r.Data(id) == s.Data(id) || r.Data(id) == NO_PERIOD_DATA {
    }
  }

  /** In the index of every period of the break, keys increase with the ads. */
  ghost predicate KeysIncrease(s: Placing) {
    forall id, key, key' :: id in s.log.blank && id in s.periods && key in s.periods[id].offset2Ad &&
                            key' in s.periods[id].offset2Ad && key < key'
      ==> s.periods[id].offset2Ad[key].adIdx < s.periods[id].offset2Ad[key'].adIdx
  }

  lemma {:induction false} CatalogIncreases(s: Placing)
    requires Ledger(s, 0) && Catalog(s, 0)
    ensures KeysIncrease(s)
  {
    forall id, key, key' |
      && id in s.log.blank && id in s.periods
      && key in s.periods[id].offset2Ad && key' in s.periods[id].offset2Ad && key < key'
      ensures s.periods[id].offset2Ad[key].adIdx < s.periods[id].offset2Ad[key'].adIdx
    {
      KeysFollowAds(s, id, key, key');
    }
  }

  lemma {:induction false} AdjustIncreases(s: Placing, mpd: seq<Period>)
    requires KeysIncrease(s)
    ensures KeysIncrease(AdjustEnd(s, mpd))
  {
  }

  /** Lookup inverts placement: after any run of MPD refreshes, with ads of at least 2000 ms, the index
      entry for any offset in the bucket where an ad starts is exactly that ad, unless the end adjustment
      has reset its period, and the keys of every period's index increase with the ads. */
  lemma {:induction false} LookupInvertsPlacement(s: Placing, mpds: seq<seq<Period>>)
    requires Ledger(s, 0) && (s.Done() || Ready(s)) && AllFit(s, mpds)
    requires Catalog(s, 0) && Long(s.Ads()) && s.breakId != ""
    ensures Findable(Run(s, mpds)) && KeysIncrease(Run(s, mpds))
    decreases |mpds|
  {
    hide Ledger, Punctual, Accounted, AdjustEnd, PlaceOver, Catalog, Findable, KeysIncrease, Fits, SameAds;
    CatalogFindable(s);
    CatalogIncreases(s);
    if mpds != [] {
      var w := PlaceOver(s, mpds[0], 0, false);
      PlaceOverKeeps(s, mpds[0], 0, false);
      PlaceOverCatalog(s, mpds[0], 0, false);
      FilledMeans(s, w);
      LongSame(s.Ads(), w.Ads());
      LedgerAccounted(w);
      CatalogFindable(w);
      CatalogIncreases(w);
      BreakIdKept(s, mpds[0], 0, false);
      var (u, over) := Refresh(s, mpds[0]);
      if w.Done() {
        AdjustFindable(w, mpds[0]);
        AdjustIncreases(w, mpds[0]);
        AdjustAccounted(w, mpds[0]);
      }
      if !over {
        LookupInvertsPlacement(u, mpds[1..]);
      }
    }
  }

  lemma {:induction false} BreakIdKept(s: Placing, mpd: seq<Period>, i: nat, found: bool)
    requires i <= |mpd| && (s.Done() || Ready(s))
    ensures PlaceOver(s, mpd, i, found).breakId == s.breakId
    decreases |mpd| - i
  {
    hide Receive;
    if i < |mpd| && !s.Done() {
      if mpd[i].id == s.openPeriodId {
        BreakIdKept(Receive(s, mpd[i]), mpd, i + 1, true);
      } else if found && mpd[i].duration > 0 {
        BreakIdKept(Receive(Open(s, mpd[i].id), mpd[i]), mpd, i + 1, true);
      } else {
        BreakIdKept(s, mpd, i + 1, found);
      }
    }
  }

  /** In the index of a period of the break, keys increase with the ads. */
  lemma {:induction false} KeysFollowAds(s: Placing, id: string, key: int, key': int)
    requires Ledger(s, 0) && Catalog(s, 0) && id in s.log.blank && id in s.periods
    requires key in s.periods[id].offset2Ad && key' in s.periods[id].offset2Ad && key < key'
    ensures s.periods[id].offset2Ad[key].adIdx < s.periods[id].offset2Ad[key'].adIdx
  {
    assert KeyOk(s, id, key) && KeyOk(s, id, key');
    var a, a' := s.periods[id].offset2Ad[key].adIdx, s.periods[id].offset2Ad[key'].adIdx;
    assert StartsIn(s, a', id);
    if key > 0 && a' < a {
      StartsApart(s, a', a);
      BucketMonotone(s.Ads()[a'].basePeriodOffset, s.Ads()[a].basePeriodOffset);
    }
  }

  lemma {:induction false} BucketMonotone(a: int, b: int)
    requires 0 <= a <= b
    ensures Bucket(a) <= Bucket(b)
  {
  }

  /** k is the greatest key of the index at or below the given offset. */
  ghost predicate IsFloorKey(data: PeriodData, key: nat, k: int) {
    k in data.offset2Ad && k <= key && forall x :: x in data.offset2Ad && x <= key ==> x <= k
  }

  /** Discrete playback (a seek, or trick play) at an offset of a period of the break finds the latest
      ad whose bucket begins at or before it, or the ad that was playing when the period opened. */
  lemma {:induction false} DiscreteFindsLatest(s: Placing, id: string, key: nat, k: int, j: nat)
    requires Ledger(s, 0) && Catalog(s, 0) && id in s.log.blank && id in s.periods && IsFloorKey(s.periods[id], key, k)
    requires StartsIn(s, j, id) && Bucket(s.Ads()[j].basePeriodOffset) <= key
    ensures var found := s.periods[id].offset2Ad[k].adIdx;
            && j <= found && (k > 0 ==> StartsIn(s, found, id) && Bucket(s.Ads()[found].basePeriodOffset) == k <= key)
  {
    assert Listed(s, j);
    assert KeyOk(s, id, k);
    var b := Bucket(s.Ads()[j].basePeriodOffset);
    if b < k {
      KeysFollowAds(s, id, b, k);
    }
  }

  /** The position, in whole seconds, that discrete playback takes inside the ad it found, compared with the
      true one, which is the content time of the offset less the content time at which the ad starts. In
      the period where the ad starts it is the true one if and only if what is cut off to whole seconds is
      the distance of the ad's start from its bucket. In a period that opened in mid-ad it is too early by
      what is cut off and by the lead of the ad, that is, what was played of it before, so it is the true one
      if and only if these are nothing together; there the index itself says what was played before, but for
      content discarded and for the shift of the period where the ad starts. */
  lemma {:induction false} DiscreteOffset(s: Placing, id: string, key: nat, k: int, adOffset: int)
    requires Ledger(s, 0) && Catalog(s, 0) && id in s.log.blank && id in s.periods && IsFloorKey(s.periods[id], key, k)
    requires s.periods[id].offset2Ad[k].adIdx < Started(s) && adOffset == (key - k) / 1000
    ensures var e := s.periods[id].offset2Ad[k]; var found := e.adIdx;
            && found < |s.Ads()| && s.Ads()[found].basePeriodId in s.log.base
            && var into, lead := s.log.base[id] + key - StartOf(s, found), s.log.base[id] - StartOf(s, found);
            && (StartsIn(s, found, id) ==>
                  var past := s.Ads()[found].basePeriodOffset % OFFSET_ALIGN_FACTOR;
                  && 1000 * adOffset == into + past - (key - k) % 1000
                  && (1000 * adOffset == into <==> (key - k) % 1000 == past))
            && (!StartsIn(s, found, id) ==>
                  && k == 0 && 1000 * adOffset == into - lead - key % 1000
                  && (1000 * adOffset == into <==> lead + key % 1000 == 0)
                  && 0 <= lead + Shift(s, found)
                  && (s.periods[id].adBreakId == s.breakId ==>
                        e.adStartOffset <= lead + Shift(s, found) <= e.adStartOffset + s.log.discarded))
  {
    assert KeyOk(s, id, k);
    assert Placed(s, s.periods[id].offset2Ad[k].adIdx);
  }

  /** A break of two ads, the first of d milliseconds, before its first content. */
  function TwoAds(d: nat): Placing {
    Placing(AdBreak(12000, [AdNode(d, false, "p", 0), AdNode(4000, false, "", -1)], "", 0, d + 4000, false),
            map["p" := PeriodData(false, "p", 0, map[0 := AdOnPeriod(0, 0)])],
            "p", "p", 0, 0, 0, Log(map["p" := 0], 0, 0, false, 0, [0], map["p" := 0], {"p"}))
  }

  /** Period p with 7.5 s of content, and with 4 s, and period q with 1 s. */
  const LONG_P := Period("p", 7500, 1, [7500])
  const SHORT_P := Period("p", 4000, 1, [4000])
  const NEXT_Q := Period("q", 1000, 1, [1000])

  /** The second ad starts where the first one ends, and its entry is in the bucket of 4 s. */
  lemma {:induction false} SecondStarts(d: nat)
    requires 4000 <= d < 6000
    ensures Ready(TwoAds(d))
    ensures var r := Receive(TwoAds(d), LONG_P);
            && r.log.base == map["p" := 0] && Started(r) == 2 && |r.Ads()| == 2 && "p" in r.periods
            && r.Ads()[1].basePeriodId == "p" && r.Ads()[1].basePeriodOffset == d
            && r.periods["p"].offset2Ad == map[0 := AdOnPeriod(0, 0), 4000 := AdOnPeriod(1, 0)]
  {
    assert NewContent(LONG_P, 1, 1) == (0, 1) && NewContent(LONG_P, 0, 0) == (7500, 1);
    var u := Count(TwoAds(d), 7500, 1);
    var step := FillStep(u, 7500);
    assert step.more && step.rest == 7500 - d && Bucket(d) == 4000;
    assert Fill(u, 7500) == Fill(step.next, 7500 - d);
  }

  /** A seek to 5.5 s lands 1 s inside the second ad: the true position if it starts at 4.5 s, off every
      bucket, and half a second too early if it starts at 4 s, on one. */
  lemma {:induction false} SeekHitsAndMisses()
    ensures Ready(TwoAds(4500)) && Ready(TwoAds(4000)) && (5500 - 4000) / 1000 == 1
    ensures var r := Receive(TwoAds(4500), LONG_P);
            && 1 < |r.Ads()| && "p" in r.periods && IsFloorKey(r.periods["p"], 5500, 4000)
            && r.Ads()[1].basePeriodId in r.log.base && r.log.base["p"] + 5500 - StartOf(r, 1) == 1000
    ensures var r := Receive(TwoAds(4000), LONG_P);
            && 1 < |r.Ads()| && "p" in r.periods && IsFloorKey(r.periods["p"], 5500, 4000)
            && r.Ads()[1].basePeriodId in r.log.base && r.log.base["p"] + 5500 - StartOf(r, 1) == 1500
  {
    hide Receive;
    SecondStarts(4500);
    SecondStarts(4000);
  }

  /** Content that does not complete an ad which has its place moves the offset only. */
  lemma {:induction false} FillsInside(s: Placing, delta: nat)
    requires Ready(s) && 0 < delta <= s.Data(s.openPeriodId).duration && s.Ads()[s.curAdIdx].basePeriodId != ""
    requires s.adNextOffset + delta < s.Ads()[s.curAdIdx].duration
    ensures Fill(s, delta) == s.(adNextOffset := s.adNextOffset + delta)
  {
    assert FillStep(s, delta) == Iteration(s.(adNextOffset := s.adNextOffset + delta), 0, false);
  }

  lemma {:induction false} FourSecondsIn()
    ensures Ready(TwoAds(6000)) && Ready(Receive(TwoAds(6000), SHORT_P))
    ensures var s := Receive(TwoAds(6000), SHORT_P);
            && s.Ads() == TwoAds(6000).Ads() && s.curAdIdx == 0 && s.adNextOffset == 4000 && s.openPeriodId == "p"
            && s.log.base == map["p" := 0] && s.log.received == 4000 && "q" !in s.periods && s.breakId == "p"
  {
    hide Fill;
    assert NewContent(SHORT_P, 1, 1) == (0, 1) && NewContent(SHORT_P, 0, 0) == (4000, 1);
    var u := Count(TwoAds(6000), 4000, 1);
    FillsInside(u, 4000);
    assert Receive(TwoAds(6000), SHORT_P) == u.(adNextOffset := 4000);
  }

  lemma {:induction false} OpensMidAd(s: Placing)
    requires Ready(s) && s.Ads() == TwoAds(6000).Ads() && s.curAdIdx == 0 && s.adNextOffset == 4000
    requires s.openPeriodId == "p" && "q" !in s.periods && s.breakId == "p"
    ensures Ready(Open(s, "q"))
    ensures var r := Receive(Open(s, "q"), NEXT_Q);
            && r.Ads() == s.Ads() && r.log.base == s.log.base["q" := s.log.received]
            && r.Data("q").offset2Ad == map[0 := AdOnPeriod(0, 4000)]
  {
    assert NewContent(NEXT_Q, 1, 1) == (0, 1) && NewContent(NEXT_Q, 0, 0) == (1000, 1);
    var v := Count(Open(s, "q"), 1000, 1);
    assert Receive(Open(s, "q"), NEXT_Q) == FillStep(v, 1000).next;
    assert v.Data("q").offset2Ad == map[0 := AdOnPeriod(0, 4000)];
  }

  /** Period q opens 4 s into an ad of 6 s: a seek to its beginning lands at the ad's beginning. */
  lemma {:induction false} SeekMisjudgesMidAd()
    ensures Ready(TwoAds(6000)) && Ready(Receive(TwoAds(6000), SHORT_P))
    ensures var u := Open(Receive(TwoAds(6000), SHORT_P), "q"); Ready(u)
    ensures var r := Receive(Open(Receive(TwoAds(6000), SHORT_P), "q"), NEXT_Q);
            && |r.Ads()| > 0 && "q" in r.log.base && r.Ads()[0].basePeriodId in r.log.base
            && IsFloorKey(r.Data("q"), 0, 0) && r.Data("q").offset2Ad[0] == AdOnPeriod(0, 4000)
            && r.log.base["q"] + 0 - StartOf(r, 0) == 4000
  {
    hide Receive, Open;
    FourSecondsIn();
    OpensMidAd(Receive(TwoAds(6000), SHORT_P));
  }
}
