/** Laying the ads of a break over the content periods of a live DASH presentation (PlaceAds), on
    values: the break being placed, the period map, and the history of the content received. */
module AdPlacement {

  /** Ads are aligned to buckets of this many milliseconds. */
  const OFFSET_ALIGN_FACTOR: nat := 2000

  /** basePeriodId is "" until the ad's first content arrives. */
  datatype AdNode = AdNode(duration: nat, placed: bool, basePeriodId: string, basePeriodOffset: int)

  datatype AdBreak = AdBreak(brkDuration: nat, ads: seq<AdNode>, endPeriodId: string, endPeriodOffset: nat,
                             adsDuration: nat, adjustEndPeriodOffset: bool)

  datatype AdOnPeriod = AdOnPeriod(adIdx: nat, adStartOffset: nat)

  datatype PeriodData = PeriodData(filled: bool, adBreakId: string, duration: nat, offset2Ad: map<int, AdOnPeriod>)

  const NO_PERIOD_DATA := PeriodData(false, "", 0, map[])

  /** One period of an MPD: its declared duration and its segments' durations, numbered from start. */
  datatype Period = Period(id: string, duration: nat, start: nat, segments: seq<nat>)

  /** History of the break being placed: the content time at which each period was opened, the
      content received, how much of it was discarded while waiting, whether the last ad is complete
      and how much was left over then, the discarded total at the moment each ad's turn came, the
      content that each period held already when it was opened, and the periods that were not in the index
      of another break then. */
  datatype Log = Log(base: map<string, int>, received: nat, discarded: nat, ended: bool, leftover: nat, late: seq<nat>,
                     held: map<string, nat>, blank: set<string>)

  /** The break being placed, with the placement cursor. */
  datatype Placing = Placing(brk: AdBreak, periods: map<string, PeriodData>, breakId: string, openPeriodId: string,
                             curEndNumber: nat, curAdIdx: nat, adNextOffset: nat, log: Log)
  {
    function Ads(): seq<AdNode> { brk.ads }

    predicate Done() { brk.adjustEndPeriodOffset }

    function Data(id: string): PeriodData {
      if id in periods then periods[id] else NO_PERIOD_DATA
    }

    function Held(id: string): nat {
      if id in log.held then log.held[id] else 0
    }
  }

  // ----- New content of a period: aamp_GetPeriodNewContentDuration ---------------------------

  /** The duration of the segments from index i on that are numbered above curEndNumber, and the
      highest number seen. */
  function NewContent(p: Period, i: nat, curEndNumber: nat): (nat, nat)
    requires i <= |p.segments|
    decreases |p.segments| - i
  {
    if i == |p.segments| then (0, curEndNumber)
    else if p.start + i > curEndNumber then
      var (d, e) := NewContent(p, i + 1, p.start + i);
      (p.segments[i] + d, e)
    else NewContent(p, i + 1, curEndNumber)
  }

  // ----- Filling the open period -------------------------------------------------------------

  function Bucket(offset: int): int
    requires offset >= 0
  {
    offset - offset % OFFSET_ALIGN_FACTOR
  }

  /** The given ad starts in a bucket of the period. */
  function WithStart(data: PeriodData, bucket: int, adIdx: nat): PeriodData {
    data.(offset2Ad := data.offset2Ad[bucket := AdOnPeriod(adIdx, 0)])
  }

  /** The current ad gets its place when its first content arrives; delta of the open period's
      content is still to be used. */
  function StartAd(s: Placing, delta: nat): (r: Placing)
    requires s.curAdIdx < |s.Ads()| && delta <= s.Data(s.openPeriodId).duration
    ensures r == s.(brk := s.brk.(ads := r.Ads()), periods := r.periods)
    ensures |r.Ads()| == |s.Ads()| && r.Ads()[s.curAdIdx].duration == s.Ads()[s.curAdIdx].duration
    ensures r.Data(r.openPeriodId).duration == s.Data(s.openPeriodId).duration
  {
    if s.Ads()[s.curAdIdx].basePeriodId != "" then s
    else
      var data := s.Data(s.openPeriodId);
      var offset := data.duration - delta;
      var ad := s.Ads()[s.curAdIdx].(basePeriodId := s.openPeriodId, basePeriodOffset := offset);
      s.(brk := s.brk.(ads := s.Ads()[s.curAdIdx := ad]),
         periods := s.periods[s.openPeriodId := WithStart(data, Bucket(offset), s.curAdIdx)])
  }

  function MarkPlaced(s: Placing): Placing
    requires s.curAdIdx < |s.Ads()|
  {
    s.(brk := s.brk.(ads := s.Ads()[s.curAdIdx := s.Ads()[s.curAdIdx].(placed := true)]))
  }

  /** The cursor is on an ad, inside it. */
  predicate Ready(s: Placing) {
    !s.Done() && s.curAdIdx < |s.Ads()| && s.adNextOffset <= s.Ads()[s.curAdIdx].duration
  }

  /** The current ad is complete and the next one's turn comes. */
  function NextAd(s: Placing): (r: Placing)
    requires s.curAdIdx < |s.Ads()|
    ensures r.curAdIdx == s.curAdIdx + 1 && |r.Ads()| == |s.Ads()|
  {
    MarkPlaced(s).(curAdIdx := s.curAdIdx + 1, adNextOffset := 0, log := s.log.(late := s.log.late + [s.log.discarded]))
  }

  /** The last ad is complete with rest milliseconds of the open period to spare. */
  function EndBreak(s: Placing, rest: nat): Placing
    requires s.curAdIdx < |s.Ads()| && rest <= s.Data(s.openPeriodId).duration
  {
    var u := MarkPlaced(s);
    u.(curAdIdx := s.curAdIdx + 1,
       brk := u.brk.(endPeriodId := s.openPeriodId, endPeriodOffset := s.Data(s.openPeriodId).duration - rest,
                     adjustEndPeriodOffset := true),
       log := s.log.(ended := true, leftover := rest))
  }

  /** What one iteration leaves: the new state, the content still to be used, and whether to go on. */
  datatype Iteration = Iteration(next: Placing, rest: nat, more: bool)

  /** One iteration of the placement loop, with delta > 0 milliseconds of content to be used. */
  function FillStep(s: Placing, delta: nat): (r: Iteration)
    requires Ready(s) && delta <= s.Data(s.openPeriodId).duration
    ensures r.next.Done() || Ready(r.next)
    ensures r.more ==> Ready(r.next) && r.rest <= delta && r.rest <= r.next.Data(r.next.openPeriodId).duration
    ensures r.more ==> r.next.curAdIdx == s.curAdIdx + 1 && |r.next.Ads()| == |s.Ads()|
    ensures !r.more ==> r.rest == 0
    ensures r.next.openPeriodId == s.openPeriodId && r.next.breakId == s.breakId
    ensures r.next.log.base == s.log.base && r.next.log.held == s.log.held && r.next.log.blank == s.log.blank
  {
    var u := StartAd(s, delta);
    var left := s.Ads()[s.curAdIdx].duration - s.adNextOffset;
    if delta < left then Iteration(u.(adNextOffset := s.adNextOffset + delta), 0, false)
    else if s.curAdIdx < |s.Ads()| - 1 then Iteration(NextAd(u), delta - left, true)
    else if delta >= OFFSET_ALIGN_FACTOR then Iteration(EndBreak(u, delta - left), 0, false)
    else Iteration(u.(log := u.log.(discarded := u.log.discarded + delta)), 0, false)
  }

  /** Content is discarded exactly when it completes the last ad without leaving room to fall back. */
  lemma {:induction false} DiscardsIff(s: Placing, delta: nat)
    requires Ready(s) && 0 < delta <= s.Data(s.openPeriodId).duration
    ensures var waits := s.curAdIdx == |s.Ads()| - 1 &&
              s.Ads()[s.curAdIdx].duration - s.adNextOffset <= delta < OFFSET_ALIGN_FACTOR;
            FillStep(s, delta).next.log.discarded == s.log.discarded + if waits then delta else 0
  {
  }

  /** Lays ads over the last delta milliseconds of the open period. */
  function Fill(s: Placing, delta: nat): (r: Placing)
    requires Ready(s) && delta <= s.Data(s.openPeriodId).duration
    ensures r.Done() || Ready(r)
    ensures r.openPeriodId == s.openPeriodId && r.breakId == s.breakId
    ensures r.log.base == s.log.base && r.log.held == s.log.held && r.log.blank == s.log.blank
    decreases |s.Ads()| - s.curAdIdx
  {
    if delta == 0 then s
    else
      var step := FillStep(s, delta);
      if step.more then Fill(step.next, step.rest) else step.next
  }

  // ----- One refresh -------------------------------------------------------------------------

  /** The open period's new content is counted and filled; a period seen first is tied to the break. */
  function Count(s: Placing, delta: nat, endNumber: nat): (r: Placing)
    ensures delta <= r.Data(r.openPeriodId).duration
  {
    var data := s.Data(s.openPeriodId);
    var tied := if data.adBreakId != "" then data
                else data.(adBreakId := s.breakId,
                           offset2Ad := data.offset2Ad[0 := AdOnPeriod(s.curAdIdx, s.adNextOffset)]);
    s.(periods := s.periods[s.openPeriodId := tied.(duration := data.duration + delta)],
       curEndNumber := endNumber, log := s.log.(received := s.log.received + delta))
  }

  function Receive(s: Placing, p: Period): (r: Placing)
    requires Ready(s)
    ensures r.Done() || Ready(r)
    ensures r.breakId == s.breakId
  {
    var (delta, endNumber) := NewContent(p, 0, s.curEndNumber);
    Fill(Count(s, delta, endNumber), delta)
  }

  /** A period without an index, or a break of its own of which at most the first ad waits there. */
  predicate Blank(s: Placing, id: string) {
    var data := s.Data(id);
    || (data.offset2Ad == map[] && (data.adBreakId != "" || data.duration == 0))
    || (data.offset2Ad.Keys == {0} && data.offset2Ad[0].adIdx == 0 && data.adBreakId == id != s.breakId)
  }

  /** The open period has ended and the given one takes its place. */
  function Open(s: Placing, id: string): Placing {
    s.(periods := s.periods[s.openPeriodId := s.Data(s.openPeriodId).(filled := true)],
       openPeriodId := id, curEndNumber := 0,
       log := s.log.(base := s.log.base[id := s.log.received], held := s.log.held[id := s.Data(id).duration],
                     blank := if Blank(s, id) then s.log.blank + {id} else s.log.blank - {id}))
  }

  /** The loop over the periods of an MPD from i on; found: the open period was seen. */
  function PlaceOver(s: Placing, mpd: seq<Period>, i: nat, found: bool): (r: Placing)
    requires i <= |mpd| && (s.Done() || Ready(s))
    ensures r.Done() || Ready(r)
    decreases |mpd| - i
  {
    if i == |mpd| || s.Done() then s
    else if mpd[i].id == s.openPeriodId then PlaceOver(Receive(s, mpd[i]), mpd, i + 1, true)
    else if found && mpd[i].duration > 0 then PlaceOver(Receive(Open(s, mpd[i].id), mpd[i]), mpd, i + 1, true)
    else PlaceOver(s, mpd, i + 1, found)
  }

  // ----- The end adjustment ------------------------------------------------------------------

  /** The first period of the MPD from i on with the given id; |mpd| if there is none. */
  function Find(mpd: seq<Period>, id: string, i: nat): (r: nat)
    requires i <= |mpd|
    ensures i <= r <= |mpd| && (r < |mpd| ==> mpd[r].id == id)
    decreases |mpd| - i
  {
    if i == |mpd| || mpd[i].id == id then i else Find(mpd, id, i + 1)
  }

  /** Where the break ends is moved to a period boundary when it is close to one; until that is
      decided the break stays marked for adjustment. */
  function AdjustEnd(s: Placing, mpd: seq<Period>): Placing {
    var i := Find(mpd, s.brk.endPeriodId, 0);
    if i == |mpd| then s.(brk := s.brk.(adjustEndPeriodOffset := false))
    else if s.brk.endPeriodOffset < 2 * OFFSET_ALIGN_FACTOR then
      s.(brk := s.brk.(adjustEndPeriodOffset := false, endPeriodOffset := 0),
         periods := s.periods[s.brk.endPeriodId := NO_PERIOD_DATA])
    else if mpd[i].duration - s.brk.endPeriodOffset < OFFSET_ALIGN_FACTOR then
      if i + 1 < |mpd| then
        s.(brk := s.brk.(adjustEndPeriodOffset := false, endPeriodOffset := 0, endPeriodId := mpd[i + 1].id),
           periods := s.periods[mpd[i + 1].id := NO_PERIOD_DATA])
      else s
    else s.(brk := s.brk.(adjustEndPeriodOffset := false))
  }

  /** One refresh of a break that is still being placed; the second value says whether the break's
      placement is over. */
  function Refresh(s: Placing, mpd: seq<Period>): (r: (Placing, bool))
    requires s.Done() || Ready(s)
    ensures !r.1 ==> r.0.Done() || Ready(r.0)
  {
    var u := PlaceOver(s, mpd, 0, false);
    if u.Done() then var v := AdjustEnd(u, mpd); (v, !v.Done()) else (u, false)
  }

  // ----- What every step keeps ---------------------------------------------------------------

  /** Total duration of the first n ads. */
  function Sum(ads: seq<AdNode>, n: nat): nat
    requires n <= |ads|
  {
    if n == 0 then 0 else Sum(ads, n - 1) + ads[n - 1].duration
  }

  /** Where ad k starts on the content timeline of the break. */
  function StartOf(s: Placing, k: nat): int
    requires k < |s.Ads()| && s.Ads()[k].basePeriodId in s.log.base
  {
    s.log.base[s.Ads()[k].basePeriodId] + s.Ads()[k].basePeriodOffset
  }

  /** How far ad k's place lies behind the content it is laid over: what its period held when it was opened
      is counted again. The first ad is put at the beginning of its period all the same. */
  function Shift(s: Placing, k: nat): nat
    requires k < |s.Ads()|
  {
    if k == 0 then 0 else s.Held(s.Ads()[k].basePeriodId)
  }

  /** Ad k has its place: content time late[k] behind the sum of the ads before it, and the shift of its
      period. */
  ghost predicate Placed(s: Placing, k: nat)
    requires k < |s.Ads()| && k < |s.log.late|
  {
    && s.Ads()[k].basePeriodId in s.log.base && s.Ads()[k].basePeriodOffset >= 0
    && StartOf(s, k) == Sum(s.Ads(), k) + s.log.late[k] + Shift(s, k)
  }

  /** The number of ads that have their place. */
  function Started(s: Placing): nat {
    if s.curAdIdx < |s.Ads()| && s.Ads()[s.curAdIdx].basePeriodId != "" then s.curAdIdx + 1 else s.curAdIdx
  }

  /** Content accounting, with rest milliseconds received but not used yet: what was received is the
      ads laid, the current ad's offset, what was discarded and what was left over. */
  ghost predicate Balanced(s: Placing, rest: nat) {
    && s.curAdIdx <= |s.Ads()| && (s.Done() <==> s.log.ended) && (!s.log.ended ==> Ready(s))
    && s.log.received == Sum(s.Ads(), s.curAdIdx) + s.log.discarded +
                         if s.log.ended then s.log.leftover else s.adNextOffset + rest
  }

  /** Each ad's turn came no earlier than the one before, and only the ads whose turn came have a
      place. */
  ghost predicate InTurn(s: Placing) {
    && |s.log.late| == (if s.log.ended then s.curAdIdx else s.curAdIdx + 1)
    && (forall k :: 0 <= k < |s.log.late| ==> s.log.late[k] <= s.log.discarded)
    && (forall j, k :: 0 <= j <= k < |s.log.late| ==> s.log.late[j] <= s.log.late[k])
    && (forall k :: Started(s) <= k < |s.Ads()| ==> s.Ads()[k].basePeriodId == "")
    && (forall k :: 0 <= k < s.curAdIdx && k < |s.Ads()| ==> s.Ads()[k].basePeriodId != "" && s.Ads()[k].placed)
    && (!s.log.ended && Started(s) == s.curAdIdx ==> s.adNextOffset == 0 && s.log.late[s.curAdIdx] == s.log.discarded)
    && (s.log.ended ==> Started(s) == s.curAdIdx) && 0 < Started(s) <= |s.log.late| && Started(s) <= |s.Ads()|
    && forall k :: 0 <= k < Started(s) ==> Placed(s, k)
  }

  /** The open period's share of the content received. */
  ghost predicate OpenCounts(s: Placing) {
    s.openPeriodId != "" && s.openPeriodId in s.log.base &&
    s.log.base[s.openPeriodId] + s.Data(s.openPeriodId).duration == s.log.received + s.Held(s.openPeriodId)
  }

  /** The break's end was put where its last ad ends, on the content timeline. */
  ghost predicate EndLaid(s: Placing) {
    s.log.ended ==>
      && s.brk.endPeriodId in s.log.base && s.curAdIdx <= |s.Ads()|
      && s.log.base[s.brk.endPeriodId] + s.brk.endPeriodOffset ==
           Sum(s.Ads(), s.curAdIdx) + s.log.discarded + s.Held(s.brk.endPeriodId)
  }

  ghost predicate Ledger(s: Placing, rest: nat) {
    Balanced(s, rest) && InTurn(s) && OpenCounts(s) && EndLaid(s)
  }

  /** Content was discarded under the last ad only, so every ad's turn came on time. */
  ghost predicate Punctual(s: Placing) {
    && (forall k :: 0 <= k < |s.log.late| ==> s.log.late[k] == 0)
    && (s.log.discarded > 0 ==> s.curAdIdx + 1 >= |s.Ads()|) && (s.log.ended ==> s.curAdIdx == |s.Ads()|)
  }

  /** Neither durations nor their number changed. */
  ghost predicate SameAds(a: seq<AdNode>, b: seq<AdNode>) {
    |a| == |b| && forall k :: 0 <= k < |a| ==> a[k].duration == b[k].duration
  }

  lemma {:induction false} SameAdsChain(a: seq<AdNode>, b: seq<AdNode>, c: seq<AdNode>)
    requires SameAds(a, b) && SameAds(b, c)
    ensures SameAds(a, c)
  {
  }

  lemma {:induction false} SumSame(a: seq<AdNode>, b: seq<AdNode>, n: nat)
    requires n <= |a| <= |b| && forall k :: 0 <= k < n ==> a[k].duration == b[k].duration
    ensures Sum(a, n) == Sum(b, n)
  {
    if n > 0 {
      SumSame(a, b, n - 1);
    }
  }

  lemma {:induction false} StartKeeps(s: Placing, delta: nat)
    requires Ledger(s, delta) && !s.log.ended && 0 < delta <= s.Data(s.openPeriodId).duration
    ensures var u := StartAd(s, delta);
            && Ledger(u, delta) && SameAds(s.Ads(), u.Ads()) && (Punctual(s) ==> Punctual(u))
            && u.Ads()[u.curAdIdx].basePeriodId != "" && Ready(u)
  {
    var u := StartAd(s, delta);
    forall n | 0 <= n <= |s.Ads()| ensures Sum(u.Ads(), n) == Sum(s.Ads(), n) {
      SumSame(s.Ads(), u.Ads(), n);
    }
    forall k | 0 <= k < Started(u) ensures Placed(u, k) {
      if k < Started(s) {
        assert Placed(s, k);
      }
    }
  }

  lemma {:induction false} NextKeeps(s: Placing, rest: nat, used: nat)
    requires Ledger(s, rest) && !s.log.ended && s.Ads()[s.curAdIdx].basePeriodId != "" && s.curAdIdx < |s.Ads()| - 1
    requires used == s.Ads()[s.curAdIdx].duration - s.adNextOffset <= rest
    requires rest <= s.Data(s.openPeriodId).duration
    ensures var u := NextAd(s);
            && Ledger(u, rest - used) && SameAds(s.Ads(), u.Ads()) && (Punctual(s) ==> Punctual(u))
            && Ready(u) && !u.log.ended && rest - used <= u.Data(u.openPeriodId).duration && |u.Ads()| == |s.Ads()|
  {
    var u := NextAd(s);
    forall n | 0 <= n <= |s.Ads()| ensures Sum(u.Ads(), n) == Sum(s.Ads(), n) {
      SumSame(s.Ads(), u.Ads(), n);
    }
    forall k | 0 <= k < Started(u) ensures Placed(u, k) {
      assert Placed(s, k);
    }
  }

  lemma {:induction false} EndKeeps(s: Placing, rest: nat, used: nat)
    requires Ledger(s, rest) && !s.log.ended && s.Ads()[s.curAdIdx].basePeriodId != "" && s.curAdIdx == |s.Ads()| - 1
    requires used == s.Ads()[s.curAdIdx].duration - s.adNextOffset <= rest <= s.Data(s.openPeriodId).duration
    ensures var u := EndBreak(s, rest - used); Ledger(u, 0) && SameAds(s.Ads(), u.Ads()) &&
                                               (Punctual(s) ==> Punctual(u))
  {
    var u := EndBreak(s, rest - used);
    forall n | 0 <= n <= |s.Ads()| ensures Sum(u.Ads(), n) == Sum(s.Ads(), n) {
      SumSame(s.Ads(), u.Ads(), n);
    }
    forall k | 0 <= k < Started(u) ensures Placed(u, k) {
      assert Placed(s, k);
    }
  }

  /** The content is used up inside the current ad, or discarded while the last ad waits. */
  lemma {:induction false} PauseKeeps(s: Placing, rest: nat)
    requires Ledger(s, rest) && !s.log.ended && s.Ads()[s.curAdIdx].basePeriodId != ""
    ensures rest < s.Ads()[s.curAdIdx].duration - s.adNextOffset ==>
              var u := s.(adNextOffset := s.adNextOffset + rest); Ledger(u, 0) && (Punctual(s) ==> Punctual(u))
    ensures s.curAdIdx == |s.Ads()| - 1 ==>
              var u := s.(log := s.log.(discarded := s.log.discarded + rest));
                Ledger(u, 0) && (Punctual(s) ==> Punctual(u))
  {
    var u := s.(adNextOffset := s.adNextOffset + rest);
    var v := s.(log := s.log.(discarded := s.log.discarded + rest));
    forall k | 0 <= k < Started(s) ensures Placed(u, k) && Placed(v, k) {
      assert Placed(s, k);
    }
  }

  ghost predicate Filled(s: Placing, r: Placing, rest: nat) {
    && Ledger(r, rest) && SameAds(s.Ads(), r.Ads()) && (Punctual(s) ==> Punctual(r))
    && HeldStays(s, r)
  }

  /** The periods opened stay open to the record, with what they held. */
  ghost predicate HeldStays(s: Placing, r: Placing) {
    forall id :: id in s.log.base ==> id in r.log.base && r.Held(id) == s.Held(id)
  }

  lemma {:induction false} StepKeeps(s: Placing, delta: nat)
    requires Ledger(s, delta) && !s.log.ended && Ready(s) && 0 < delta <= s.Data(s.openPeriodId).duration
    ensures Filled(s, FillStep(s, delta).next, FillStep(s, delta).rest)
    ensures FillStep(s, delta).more ==> !FillStep(s, delta).next.log.ended
  {
    hide InTurn, Balanced, OpenCounts, Punctual, SameAds, StartAd, NextAd, EndBreak;
    var u := StartAd(s, delta);
    StartKeeps(s, delta);
    var left := s.Ads()[s.curAdIdx].duration - s.adNextOffset;
    if delta < left {
      PauseKeeps(u, delta);
    } else if s.curAdIdx < |s.Ads()| - 1 {
      NextKeeps(u, delta, left);
      SameAdsChain(s.Ads(), u.Ads(), NextAd(u).Ads());
    } else if delta >= OFFSET_ALIGN_FACTOR {
      EndKeeps(u, delta, left);
      SameAdsChain(s.Ads(), u.Ads(), EndBreak(u, delta - left).Ads());
    } else {
      PauseKeeps(u, delta);
    }
  }

  /** Filling keeps the ledger. */
  lemma {:induction false} FillKeeps(s: Placing, delta: nat)
    requires Ledger(s, delta) && !s.log.ended && Ready(s) && delta <= s.Data(s.openPeriodId).duration
    ensures Filled(s, Fill(s, delta), 0)
    decreases |s.Ads()| - s.curAdIdx
  {
    if delta > 0 {
      hide FillStep, Ledger, Punctual, SameAds;
      StepKeeps(s, delta);
      var step := FillStep(s, delta);
      if step.more {
        FillKeeps(step.next, step.rest);
        SameAdsChain(s.Ads(), step.next.Ads(), Fill(step.next, step.rest).Ads());
      }
    } else {
      hide InTurn, Balanced, OpenCounts;
    }
  }
}
