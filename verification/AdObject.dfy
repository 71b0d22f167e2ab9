/** PrivateCDAIObjectMPD itself: its maps and its placement cursor, updated step by step. */
module AdObject {
  import opened AdPlacement
  import opened AdRuns
  import opened AdLookup
  import opened AdManager

  class PrivateCDAIObjectMPD {
    var mAdBreaks: map<string, AdBreak>
    var mPeriodMap: map<string, PeriodData>
    var mCurPlayingBreakId: string
    var mPlacementObj: Placement
    /** The break of the ad being fulfilled. */
    var mAdFulfillObj: string
    ghost var history: Log

    ghost function State(): Manager
      reads this
    {
      Manager(mAdBreaks, mPeriodMap, mPlacementObj, history)
    }

    constructor ()
      ensures State() == START
    {
      mAdBreaks, mPeriodMap, mPlacementObj, history := map[], map[], IDLE, NO_LOG;
      mCurPlayingBreakId, mAdFulfillObj := "", "";
    }

    /** A place holder, or an ad to be downloaded: accepted says that its download started, rejected
        that the break has no space left. */
    method SetAlternateContents(periodId: string, adId: string, url: string, breakdur: nat)
      returns (accepted: bool, rejected: bool)
      modifies this`mAdBreaks, this`mPeriodMap, this`mAdFulfillObj
      ensures adId == "" || url == "" ==>
                State() == Announce(old(State()), periodId, breakdur) && !accepted && !rejected
      ensures adId != "" && url != "" ==>
                State() == old(State()) && (accepted <==> Admits(State(), periodId)) &&
                  (rejected <==> periodId in mAdBreaks && !accepted)
      ensures mAdFulfillObj == if accepted then periodId else old(mAdFulfillObj)
    {
      accepted, rejected := false, false;
      if adId == "" || url == "" {
        if periodId !in mAdBreaks {
          mAdBreaks := mAdBreaks[periodId := AdBreak(breakdur, [], "", 0, 0, false)];
          if periodId !in mPeriodMap {
            mPeriodMap := mPeriodMap[periodId := NO_PERIOD_DATA];
          }
          mPeriodMap := mPeriodMap[periodId := mPeriodMap[periodId].(adBreakId := periodId)];
        }
      } else if periodId in mAdBreaks {
        if mAdBreaks[periodId].brkDuration <= mAdBreaks[periodId].adsDuration {
          rejected := true;
        } else {
          mAdFulfillObj := periodId;
          accepted := true;
        }
      }
    }

    /** After the download: manifest is the duration of the ad downloaded, or -1 if there is none. The
        outcome is what the resolved event reports. */
    method FulFillAdObject(manifest: int) returns (adStatus: bool, startMS: nat, durationMs: nat)
      requires Sound(State())
      modifies this
      ensures Sound(State()) && mCurPlayingBreakId == old(mCurPlayingBreakId) && mAdFulfillObj == old(mAdFulfillObj)
      ensures adStatus <==> manifest >= 0 && mAdFulfillObj in old(mAdBreaks)
      ensures State() == if adStatus then Fulfil(old(State()), mAdFulfillObj, manifest) else old(State())
      ensures adStatus ==>
                var ads := mAdBreaks[mAdFulfillObj].ads;
                |ads| > 0 && startMS == Sum(ads, |ads| - 1) && durationMs == ads[|ads| - 1].duration
    {
      adStatus, startMS, durationMs := false, 0, 0;
      if manifest >= 0 && mAdFulfillObj in mAdBreaks {
        ApplySound(State(), Fulfilled(mAdFulfillObj, manifest));
        ResolvedStart(State(), mAdFulfillObj, manifest);
        assert mAdBreaks[mAdFulfillObj].adsDuration <= mAdBreaks[mAdFulfillObj].brkDuration;
        hide Sound, Sum;
        startMS, durationMs := AddAd(mAdFulfillObj, manifest);
        adStatus := true;
      }
    }

    /** The ad downloaded joins its break; the first one starts the placement of the break. */
    method AddAd(periodId: string, manifest: nat) returns (startMS: nat, durationMs: nat)
      requires periodId in mAdBreaks && mAdBreaks[periodId].adsDuration <= mAdBreaks[periodId].brkDuration
      modifies this`mAdBreaks, this`mPeriodMap, this`mPlacementObj, this`history
      ensures State() == Fulfil(old(State()), periodId, manifest)
      ensures startMS == old(mAdBreaks[periodId].adsDuration) &&
                durationMs == Trimmed(old(mAdBreaks[periodId]), manifest)
    {
      ghost var before := State().Data(periodId);
      var b := mAdBreaks[periodId];
      durationMs, startMS := manifest, b.adsDuration;
      var availSpace := b.brkDuration - startMS;
      if availSpace < durationMs {
        durationMs := availSpace;
      }
      b := b.(adsDuration := b.adsDuration + durationMs);
      var bPeriodId, bOffset := "", -1;
      if |b.ads| == 0 {
        if periodId in mPeriodMap {
          var data := mPeriodMap[periodId];
          mPeriodMap := mPeriodMap[periodId := data.(offset2Ad := data.offset2Ad[0 := AdOnPeriod(0, 0)])];
        }
        mPlacementObj := Placement(periodId, periodId, 0, 0, 0);
        history := NewLog(periodId, before);
        bPeriodId, bOffset := periodId, 0;
      }
      mAdBreaks := mAdBreaks[periodId := b.(ads := b.ads + [AdNode(durationMs, false, bPeriodId, bOffset)])];
    }

    /** The duration of a period's segments not counted so far. */
    method PeriodNewContentDuration(p: Period, curEndNumber: nat) returns (durationMs: nat, endNumber: nat)
      ensures (durationMs, endNumber) == NewContent(p, 0, curEndNumber)
    {
      durationMs, endNumber := 0, curEndNumber;
      var startNumber := p.start;
      for i := 0 to |p.segments|
        invariant startNumber == p.start + i
        invariant var (d, e) := NewContent(p, i, endNumber); NewContent(p, 0, curEndNumber) == (durationMs + d, e)
      {
        if startNumber > endNumber {
          durationMs := durationMs + p.segments[i];
          endNumber := startNumber;
        }
        startNumber := startNumber + 1;
      }
    }

    /** One iteration of the placement loop. */
    method PlaceOnce(periodDelta: nat) returns (rest: nat, more: bool)
      requires State().Active() && mPlacementObj.curAdIdx >= 0
      requires Ready(State().Current())
      requires 0 < periodDelta <= State().Current().Data(mPlacementObj.openPeriodId).duration
      requires mPlacementObj.openPeriodId in mPeriodMap
      modifies this`mAdBreaks, this`mPeriodMap, this`mPlacementObj, this`history
      ensures var step := FillStep(old(State()).Current(), periodDelta);
              && State() == old(State()).With(step.next) && rest == step.rest && more == step.more
    {
      var id, periodId, idx := mPlacementObj.pendingAdbrkId, mPlacementObj.openPeriodId, mPlacementObj.curAdIdx;
      var data, b, curAd := mPeriodMap[periodId], mAdBreaks[id], mAdBreaks[id].ads[idx];
      if curAd.basePeriodId == "" {
        curAd := curAd.(basePeriodId := periodId, basePeriodOffset := data.duration - periodDelta);
        b := b.(ads := b.ads[idx := curAd]);
        var offsetKey := curAd.basePeriodOffset;
        offsetKey := offsetKey - offsetKey % OFFSET_ALIGN_FACTOR;
        mPeriodMap := mPeriodMap[periodId := data.(offset2Ad := data.offset2Ad[offsetKey := AdOnPeriod(idx, 0)])];
      }
      var left := curAd.duration - mPlacementObj.adNextOffset;
      rest, more := 0, false;
      if periodDelta < left {
        mPlacementObj := mPlacementObj.(adNextOffset := mPlacementObj.adNextOffset + periodDelta);
      } else if idx < |b.ads| - 1 || periodDelta >= OFFSET_ALIGN_FACTOR {
        b := b.(ads := b.ads[idx := b.ads[idx].(placed := true)]);
        mPlacementObj := mPlacementObj.(curAdIdx := idx + 1);
        if idx + 1 < |b.ads| {
          mPlacementObj := mPlacementObj.(adNextOffset := 0);
          rest, more := periodDelta - left, true;
          history := history.(late := history.late + [history.discarded]);
        } else {
          b := b.(endPeriodId := periodId, endPeriodOffset := data.duration - (periodDelta - left),
                  adjustEndPeriodOffset := true);
          history := history.(ended := true, leftover := periodDelta - left);
        }
      } else {
        history := history.(discarded := history.discarded + periodDelta);
      }
      mAdBreaks := mAdBreaks[id := b];
    }

    /** The open period's new content is counted and ads are laid over it. */
    method PlaceOnPeriod(period: Period)
      requires State().Active() && mPlacementObj.curAdIdx >= 0 && Ready(State().Current())
      modifies this`mAdBreaks, this`mPeriodMap, this`mPlacementObj, this`history
      ensures State() == old(State()).With(Receive(old(State()).Current(), period))
    {
      ghost var m := State();
      var periodDelta, endNumber := PeriodNewContentDuration(period, mPlacementObj.curEndNumber);
      mPlacementObj := mPlacementObj.(curEndNumber := endNumber);
      var periodId := mPlacementObj.openPeriodId;
      var data := if periodId in mPeriodMap then mPeriodMap[periodId] else NO_PERIOD_DATA;
      if data.adBreakId == "" {
        data := data.(adBreakId := mPlacementObj.pendingAdbrkId,
                      offset2Ad := data.offset2Ad[0 := AdOnPeriod(mPlacementObj.curAdIdx, mPlacementObj.adNextOffset)]);
      }
      mPeriodMap := mPeriodMap[periodId := data.(duration := data.duration + periodDelta)];
      history := history.(received := history.received + periodDelta);
      ghost var counted := Count(m.Current(), periodDelta, endNumber);
      assert State() == m.With(counted);
      hide Fill, Count;
      LayAds(periodDelta);
      WithTwice(m, counted, Fill(counted, periodDelta));
    }

    static lemma {:induction false} WithTwice(m: Manager, s: Placing, u: Placing)
      requires s.breakId == u.breakId
      ensures m.With(s).With(u) == m.With(u)
    {
      assert m.With(s).With(u).breaks == m.With(u).breaks;
    }

    /** The placement loop over the last periodDelta milliseconds of the open period. */
    method LayAds(periodDelta: nat)
      requires State().Active() && mPlacementObj.curAdIdx >= 0 && Ready(State().Current())
      requires mPlacementObj.openPeriodId in mPeriodMap &&
                 periodDelta <= mPeriodMap[mPlacementObj.openPeriodId].duration
      modifies this`mAdBreaks, this`mPeriodMap, this`mPlacementObj, this`history
      ensures State() == old(State()).With(Fill(old(State()).Current(), periodDelta))
    {
      ghost var m, goal := State(), Fill(State().Current(), periodDelta);
      var left := periodDelta;
      hide FillStep;
      while left > 0
        invariant State().Active() && mPlacementObj.curAdIdx >= 0 && State().Current().breakId == m.Current().breakId
        invariant State() == m.With(State().Current())
        invariant left > 0 ==> Ready(State().Current()) && mPlacementObj.openPeriodId in mPeriodMap
        invariant left > 0 ==> left <= mPeriodMap[mPlacementObj.openPeriodId].duration
        invariant if left > 0 then Fill(State().Current(), left) == goal else State().Current() == goal
        decreases if left > 0 then |State().Current().Ads()| - mPlacementObj.curAdIdx else -1
      {
        ghost var s := State().Current();
        var rest, more := PlaceOnce(left);
        WithTwice(m, s, FillStep(s, left).next);
        PeriodStays(s, left);
        left := if more then rest else 0;
      }
    }

    static lemma {:induction false} PeriodStays(s: Placing, delta: nat)
      requires Ready(s) && 0 < delta <= s.Data(s.openPeriodId).duration && s.openPeriodId in s.periods
      ensures FillStep(s, delta).next.openPeriodId in FillStep(s, delta).next.periods
    {
    }

    /** Where the break ends is moved to a period boundary when it is close to one. */
    method AdjustEndPeriod(mpd: seq<Period>)
      requires State().Active() && mPlacementObj.curAdIdx >= 0
      modifies this`mAdBreaks, this`mPeriodMap
      ensures State() == old(State()).With(AdjustEnd(old(State()).Current(), mpd))
    {
      var id := mPlacementObj.pendingAdbrkId;
      var b, iter := mAdBreaks[id], 0;
      while iter < |mpd| && mpd[iter].id != b.endPeriodId
        invariant iter <= |mpd| && Find(mpd, b.endPeriodId, 0) == Find(mpd, b.endPeriodId, iter)
      {
        iter := iter + 1;
      }
      if iter == |mpd| {
        b := b.(adjustEndPeriodOffset := false);
      } else if b.endPeriodOffset < 2 * OFFSET_ALIGN_FACTOR {
        b := b.(adjustEndPeriodOffset := false, endPeriodOffset := 0);
        mPeriodMap := mPeriodMap[b.endPeriodId := NO_PERIOD_DATA];
      } else if mpd[iter].duration - b.endPeriodOffset < OFFSET_ALIGN_FACTOR {
        iter := iter + 1;
        if iter < |mpd| {
          b := b.(adjustEndPeriodOffset := false, endPeriodOffset := 0, endPeriodId := mpd[iter].id);
          mPeriodMap := mPeriodMap[b.endPeriodId := NO_PERIOD_DATA];
        }
      } else {
        b := b.(adjustEndPeriodOffset := false);
      }
      mAdBreaks := mAdBreaks[id := b];
    }

    /** Lays the pending break's ads over the periods of a new MPD. */
    method PlaceAds(mpd: seq<Period>)
      requires Sound(State())
      modifies this`mAdBreaks, this`mPeriodMap, this`mPlacementObj, this`history
      ensures State() == Place(old(State()), mpd) && Sound(State())
    {
      PlaceSound(State(), mpd);
      hide Sound;
      var id := mPlacementObj.pendingAdbrkId;
      if mPlacementObj.curAdIdx != -1 && id != "" && id in mAdBreaks {
        ghost var m := State();
        PlaceOverPeriods(mpd);
        ghost var u := PlaceOver(m.Current(), mpd, 0, false);
        BreakIdKept(m.Current(), mpd, 0, false);
        assert State().Current() == u;
        hide PlaceOver, AdjustEnd;
        if mAdBreaks[id].adjustEndPeriodOffset {
          AdjustEndPeriod(mpd);
          WithTwice(m, u, AdjustEnd(u, mpd));
          if !mAdBreaks[id].adjustEndPeriodOffset {
            mPlacementObj := mPlacementObj.(curAdIdx := -1);
          }
        }
        if mPlacementObj.curAdIdx == -1 {
          mPlacementObj := Placement("", "", 0, -1, 0);
        }
      }
    }

    /** The loop over the periods, while not all ads are placed. */
    method PlaceOverPeriods(mpd: seq<Period>)
      requires State().Active() && mPlacementObj.curAdIdx >= 0
      requires State().Current().Done() || Ready(State().Current())
      modifies this`mAdBreaks, this`mPeriodMap, this`mPlacementObj, this`history
      ensures State() == old(State()).With(PlaceOver(old(State()).Current(), mpd, 0, false))
    {
      ghost var m, goal := State(), PlaceOver(State().Current(), mpd, 0, false);
      var id, openPrdFound := mPlacementObj.pendingAdbrkId, false;
      hide Receive;
      assert m == m.With(m.Current());
      for iter := 0 to |mpd|
        invariant State().Active() && mPlacementObj.curAdIdx >= 0 && mPlacementObj.pendingAdbrkId == id
        invariant State().Current().Done() || Ready(State().Current())
        invariant State() == m.With(State().Current()) && PlaceOver(State().Current(), mpd, iter, openPrdFound) == goal
      {
        if mAdBreaks[id].adjustEndPeriodOffset {
          break;
        }
        ghost var s := State().Current();
        var period := mpd[iter];
        if mPlacementObj.openPeriodId == period.id {
          openPrdFound := true;
        } else if openPrdFound {
          if period.duration > 0 {
            OpenPeriod(period.id);
            WithTwice(m, s, Open(s, period.id));
            s := Open(s, period.id);
          } else {
            continue;
          }
        }
        if openPrdFound {
          PlaceOnPeriod(period);
          WithTwice(m, s, Receive(s, period));
        }
      }
    }

    /** The open period ended; the given one takes its place. */
    method OpenPeriod(periodId: string)
      requires State().Active() && mPlacementObj.curAdIdx >= 0
      modifies this`mPeriodMap, this`mPlacementObj, this`history
      ensures State() == old(State()).With(Open(old(State()).Current(), periodId))
    {
      ghost var m, log := State(), Open(State().Current(), periodId).log;
      var open := mPlacementObj.openPeriodId;
      var data := if open in mPeriodMap then mPeriodMap[open] else NO_PERIOD_DATA;
      mPeriodMap := mPeriodMap[open := data.(filled := true)];
      mPlacementObj := mPlacementObj.(openPeriodId := periodId, curEndNumber := 0);
      history := log;
      assert State().breaks == m.With(Open(m.Current(), periodId)).breaks;
    }

    /** Forgets the breaks and periods that the new MPD does not list, except the pending and the
        playing break. */
    method PrunePeriodMaps(newPeriodIds: seq<string>)
      modifies this`mAdBreaks, this`mPeriodMap
      ensures State() == Prune(old(State()), newPeriodIds, mCurPlayingBreakId)
    {
      PruneBreaks(newPeriodIds);
      var rest := mPeriodMap.Keys;
      while rest != {}
        invariant mAdBreaks == Prune(old(State()), newPeriodIds, mCurPlayingBreakId).breaks
        invariant rest <= mPeriodMap.Keys <= old(mPeriodMap.Keys)
        invariant forall id :: id in old(mPeriodMap) ==> (id in mPeriodMap <==> id in newPeriodIds || id in rest)
        invariant forall id :: id in mPeriodMap ==> mPeriodMap[id] == old(mPeriodMap[id])
        decreases |rest|
      {
        var id :| id in rest;
        if id !in newPeriodIds {
          mPeriodMap := mPeriodMap - {id};
        }
        rest := rest - {id};
      }
      assert mPeriodMap == Prune(old(State()), newPeriodIds, mCurPlayingBreakId).periods;
    }

    method PruneBreaks(newPeriodIds: seq<string>)
      modifies this`mAdBreaks
      ensures mAdBreaks == Prune(old(State()), newPeriodIds, mCurPlayingBreakId).breaks
    {
      var rest := mAdBreaks.Keys;
      while rest != {}
        invariant rest <= mAdBreaks.Keys <= old(mAdBreaks.Keys)
        invariant forall id :: id in old(mAdBreaks) ==>
                    (id in mAdBreaks <==> id == mPlacementObj.pendingAdbrkId || id == mCurPlayingBreakId ||
                                          id in newPeriodIds || id in rest)
        invariant forall id :: id in mAdBreaks ==> mAdBreaks[id] == old(mAdBreaks[id])
        decreases |rest|
      {
        var id :| id in rest;
        if mPlacementObj.pendingAdbrkId != id && mCurPlayingBreakId != id && id !in newPeriodIds {
          mAdBreaks := mAdBreaks - {id};
        }
        rest := rest - {id};
      }
    }

    static lemma {:induction false} EmptyOrNot(keys: set<int>)
      ensures keys == {} || exists k :: k in keys
    {
      if forall k :: k !in keys {
        assert keys == {};
      }
    }

    /** A set of keys with k in it has a least key. */
    static lemma {:induction false} HasLeast(keys: set<int>, k: int)
      requires k in keys
      ensures exists least :: least in keys && forall x :: x in keys ==> least <= x
      decreases |keys|
    {
      if k' :| k' in keys && k' < k {
        HasLeast(keys - {k}, k');
        var least :| least in keys - {k} && forall x :: x in keys - {k} ==> least <= x;
        assert forall x :: x in keys ==> x == k || x in keys - {k};
        assert least in keys && forall x :: x in keys ==> least <= x;
      }
    }

    /** The entries in key order, up to the last one at or before key. */
    method DiscreteIdx(data: PeriodData, key: nat, adOffset0: int) returns (adIdx: int, adOffset: int)
      ensures adIdx == -1 ==> adOffset == adOffset0 && forall k :: k in data.offset2Ad ==> k > key
      ensures adIdx != -1 ==>
                exists k :: IsFloorKey(data, key, k) && adIdx == data.offset2Ad[k].adIdx && adOffset == (key - k) / 1000
    {
      adIdx, adOffset := -1, adOffset0;
      var rest := data.offset2Ad.Keys;
      ghost var last := 0;
      while rest != {}
        invariant rest <= data.offset2Ad.Keys
        invariant adIdx == -1 ==> adOffset == adOffset0 && rest == data.offset2Ad.Keys
        invariant adIdx != -1 ==>
                    && last in data.offset2Ad && last <= key && adIdx == data.offset2Ad[last].adIdx &&
                         adOffset == (key - last) / 1000
                    && (forall x :: x in data.offset2Ad && x !in rest ==> x <= last)
                    && forall x :: x in rest ==> last <= x
        decreases |rest|
      {
        EmptyOrNot(rest);
        var any :| any in rest;
        HasLeast(rest, any);
        var k :| k in rest && forall x :: x in rest ==> k <= x;
        if key >= k {
          adIdx, adOffset, last := data.offset2Ad[k].adIdx, (key - k) / 1000, k;
        } else {
          break;
        }
        rest := rest - {k};
      }
      assert adIdx != -1 ==> IsFloorKey(data, key, last);
    }

    /** The ad to play at an offset of a period; the break and the offset inside the ad are left as
        they were given when nothing is found. */
    method CheckForAdStart(rate: real, init: bool, periodId: string, offSet: real, breakId0: string, adOffset0: int)
      returns (adIdx: int, breakId: string, adOffset: int)
      requires offSet >= 0.0
      ensures var known := periodId in mPeriodMap && mPeriodMap[periodId].adBreakId in mAdBreaks - {""};
              && (!known ==> adIdx == -1 && breakId == breakId0 && adOffset == adOffset0)
              && (known ==>
                    var data, key := mPeriodMap[periodId], Milliseconds(offSet);
                    var b := mAdBreaks[data.adBreakId];
                    && (!init && rate == 1.0 ==>
                          && (breakId, adIdx) == SeamlessAd(mAdBreaks, data, periodId, key, breakId0)
                          && adOffset == (if adIdx == -1 then adOffset0 else 0)
                          && (adIdx == -1 <==> forall k :: !Answers(data.offset2Ad, key, k))
                          && (adIdx != -1 ==>
                                exists k :: Answers(data.offset2Ad, key, k) && adIdx == data.offset2Ad[k].adIdx))
                    && (init || rate != 1.0 ==>
                          var inside := key <= if periodId == b.endPeriodId then b.endPeriodOffset else data.duration;
                          && (adIdx == -1 ==> adOffset == adOffset0 &&
                                              (inside ==> forall k :: k in data.offset2Ad ==> k > key))
                          && (adIdx != -1 ==>
                                && inside
                                && exists k :: IsFloorKey(data, key, k) && adIdx == data.offset2Ad[k].adIdx &&
                                               adOffset == (key - k) / 1000))
                    && var ended := b.endPeriodId == periodId && key >= b.endPeriodOffset;
                       breakId == if rate >= 1.0 && adIdx == -1 && ended then "" else data.adBreakId)
    {
      adIdx, breakId, adOffset := -1, breakId0, adOffset0;
      if periodId in mPeriodMap && mPeriodMap[periodId].adBreakId != "" {
        var data := mPeriodMap[periodId];
        if data.adBreakId in mAdBreaks {
          breakId := data.adBreakId;
          var b, key := mAdBreaks[data.adBreakId], Milliseconds(offSet);
          var seamLess := if init then false else rate == 1.0;
          SeamlessAnswers(data, key);
          if seamLess {
            var floorKey := key;
            floorKey := floorKey - floorKey % OFFSET_ALIGN_FACTOR;
            var adIt := floorKey;
            if floorKey !in data.offset2Ad {
              adIt := floorKey + OFFSET_ALIGN_FACTOR;
            }
            if adIt in data.offset2Ad && data.offset2Ad[adIt].adStartOffset == 0 {
              adIdx, adOffset := data.offset2Ad[adIt].adIdx, 0;
            }
          } else {
            var end := data.duration;
            if periodId == b.endPeriodId {
              end := b.endPeriodOffset;
            }
            if key <= end {
              adIdx, adOffset := DiscreteIdx(data, key, adOffset0);
            }
          }
          if rate >= 1.0 && adIdx == -1 && b.endPeriodId == periodId && key >= b.endPeriodOffset {
            breakId := "";
          }
        }
      }
    }
  }
}
