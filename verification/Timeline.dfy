/** The index of a playlist: completion times, periods between discontinuities, and the culled
    time a refresh reports. */
module Timeline {
  import opened Common
  import opened Playlist
  import opened TrackModel
  import opened WindowScan

  // ----- Culled time ------------------------------------------------------------------------

  lemma {:induction false} ExcessIsDropped(b: Broadcast, first: int, first': int, last': int, played: int)
    requires Positive(b) && first <= played && first <= first' <= last'
    ensures Excess(Span(b, first, played + 1), Clipped(b, first', last', played)) == Span(b, first, first') <==>
            first' - 1 <= played <= last'
  {
    SpanPositive(b, first, first');
    SpanPositive(b, first, played + 1);
    if played < first' {
      SpanSplit(b, first, played + 1, first');
      SpanPositive(b, played + 1, first');
    } else {
      SpanSplit(b, first, first', played + 1);
      if played > last' {
        SpanSplit(b, first', last' + 1, played + 1);
        SpanPositive(b, last' + 1, played + 1);
      }
    }
  }

  /** A refresh onto a later window adds exactly the duration of the segments dropped if and only
      if the last played segment is still listed, or is the last one dropped. */
  lemma {:induction false} CulledExactly(t: Track, w: Window, b: Broadcast, lines: seq<Line>, w': Window)
    requires Indexed(t.index, t.indexFirst, w, b) && w.Has(t.nextMediaSequenceNumber - 1)
    requires IsWindow(lines, w', b) && Positive(b) && w.first <= w'.first
    ensures var u := IndexPlaylist(t.(playlist := lines), true); var played := t.nextMediaSequenceNumber - 1;
            u.culledSeconds - t.culledSeconds == Span(b, w.first, w'.first) <==>
              w'.first - 1 <= played <= w'.Last()
  {
    hide Indexed, IndexPlaylist, Span, Positive, Clipped, Excess;
    IndexRefreshed(t.(playlist := lines), w, b, w');
    ExcessIsDropped(b, w.first, w'.first, w'.Last(), t.nextMediaSequenceNumber - 1);
  }

  // ----- Any playlist: completion times are prefix sums -------------------------------------

  /** One entry per EXTINF from line i on: its duration, and whether a discontinuity precedes it. */
  datatype Fragment = Fragment(duration: real, discontinuous: bool)

  function Fragments(lines: seq<Line>, i: nat, pending: bool): seq<Fragment>
    requires i <= |lines|
    decreases |lines| - i
  {
    if i == |lines| then []
    else if lines[i].Inf? then [Fragment(lines[i].duration, pending)] + Fragments(lines, i + 1, false)
    else Fragments(lines, i + 1, pending || lines[i].Discontinuity?)
  }

  /** The duration of the first n fragments. */
  function Total(fs: seq<Fragment>, n: nat): real
    requires n <= |fs|
  {
    if n == 0 then 0.0 else Total(fs, n - 1) + fs[n - 1].duration
  }

  lemma {:induction false} TotalExtend(fs: seq<Fragment>, more: seq<Fragment>, n: nat)
    requires n <= |fs|
    ensures Total(fs + more, n) == Total(fs, n)
  {
    if n > 0 {
      TotalExtend(fs, more, n - 1);
    }
  }

  ghost predicate Sums(index: seq<IndexNode>, fs: seq<Fragment>) {
    |index| == |fs| && forall k :: 0 <= k < |fs| ==> index[k].completion == Total(fs, k + 1)
  }

  ghost predicate IsPeriod(p: DiscontinuityNode, fs: seq<Fragment>) {
    && p.fragmentIdx < |fs| && fs[p.fragmentIdx].discontinuous
    && p.position == Total(fs, p.fragmentIdx) && p.fragmentDuration == fs[p.fragmentIdx].duration
  }

  /** The period table lists exactly the discontinuous fragments, in order, each at its start. */
  ghost predicate Periods(ps: seq<DiscontinuityNode>, fs: seq<Fragment>) {
    && (forall m :: 0 <= m < |ps| ==> IsPeriod(ps[m], fs))
    && (forall m, n :: 0 <= m < n < |ps| ==> ps[m].fragmentIdx < ps[n].fragmentIdx)
    && (forall k :: 0 <= k < |fs| && fs[k].discontinuous ==> exists m :: 0 <= m < |ps| && ps[m].fragmentIdx == k)
  }

  /** The index and the period table describe the fragments fs. */
  ghost predicate Describes(index: seq<IndexNode>, periods: seq<DiscontinuityNode>, fs: seq<Fragment>) {
    Sums(index, fs) && Periods(periods, fs)
  }

  lemma {:induction false} PeriodsAdd(ps: seq<DiscontinuityNode>, fs: seq<Fragment>, f: Fragment)
    requires Periods(ps, fs)
    ensures Periods(if f.discontinuous then ps + [DiscontinuityNode(|fs|, Total(fs, |fs|), f.duration)]
                    else ps, fs + [f])
  {
    var gs := fs + [f];
    var qs := if f.discontinuous then ps + [DiscontinuityNode(|fs|, Total(fs, |fs|), f.duration)] else ps;
    TotalExtend(fs, [f], |fs|);
    forall m | 0 <= m < |qs| ensures IsPeriod(qs[m], gs) {
      if m < |ps| {
        assert IsPeriod(ps[m], fs);
        TotalExtend(fs, [f], ps[m].fragmentIdx);
      }
    }
    forall k | 0 <= k < |gs| && gs[k].discontinuous ensures exists m :: 0 <= m < |qs| && qs[m].fragmentIdx == k {
      if k < |fs| {
        assert fs[k].discontinuous;
        var m :| 0 <= m < |ps| && ps[m].fragmentIdx == k;
        assert qs[m].fragmentIdx == k;
      } else {
        assert qs[|qs| - 1].fragmentIdx == k;
      }
    }
  }

  lemma {:induction false} SumsAdd(index: seq<IndexNode>, fs: seq<Fragment>, node: IndexNode, f: Fragment)
    requires Sums(index, fs) && node.completion == Total(fs, |fs|) + f.duration
    ensures Sums(index + [node], fs + [f]) && Total(fs + [f], |fs| + 1) == Total(fs, |fs|) + f.duration
  {
    forall n | 0 <= n <= |fs| ensures Total(fs + [f], n) == Total(fs, n) {
      TotalExtend(fs, [f], n);
    }
  }

  lemma {:induction false} IndexDescribes(t: Track, i: nat, marks: Marks, fs: seq<Fragment>)
    requires i <= |t.playlist| && Describes(t.index, t.discontinuities, fs) && t.duration == Total(fs, |fs|)
    ensures var r := IndexFrom(t, i, marks); var gs := fs + Fragments(t.playlist, i, marks.discontinuity);
            Describes(r.index, r.discontinuities, gs) && r.duration == Total(gs, |gs|)
    decreases |t.playlist| - i
  {
    hide Sums, Periods, Total;
    if i == |t.playlist| {
      assert fs + Fragments(t.playlist, i, marks.discontinuity) == fs;
    } else if t.playlist[i].Inf? {
      var d := t.playlist[i].duration;
      var f := Fragment(d, marks.discontinuity);
      PeriodsAdd(t.discontinuities, fs, f);
      SumsAdd(t.index, fs, IndexNode(t.duration + d, i, marks.init), f);
      assert |t.index| == |fs| by { SumsLength(t.index, fs); }
      IndexDescribes(AddSegment(t, i, d, marks), i + 1, marks.(discontinuity := false), fs + [f]);
      assert (fs + [f]) + Fragments(t.playlist, i + 1, false) == fs + ([f] + Fragments(t.playlist, i + 1, false));
    } else if t.playlist[i].MediaSequence? {
      IndexDescribes(t.(indexFirst := t.playlist[i].number), i + 1, marks, fs);
    } else {
      IndexDescribes(t.(live := LiveAfter(t.playlist[i], t.live)), i + 1, ReadMark(t.playlist[i], marks), fs);
    }
  }

  lemma {:induction false} SumsLength(index: seq<IndexNode>, fs: seq<Fragment>)
    requires Sums(index, fs)
    ensures |index| == |fs|
  {
  }

  /** Indexing any playlist with a header: completion times are prefix sums of the EXTINF
      durations, the period table lists exactly the discontinuous fragments in order, each at
      its own start time, and mDuration is the total. */
  lemma {:induction false} IndexPlaylistDescribes(t: Track, isRefresh: bool)
    requires HasHeader(t.playlist)
    ensures var r := IndexPlaylist(t, isRefresh); var fs := Fragments(t.playlist, 1, false);
            Describes(r.index, r.discontinuities, fs) && r.duration == Total(fs, |fs|)
  {
    IndexDescribes(FlushIndex(t), 1, Marks(None, false), []);
    assert [] + Fragments(t.playlist, 1, false) == Fragments(t.playlist, 1, false);
  }

  /** The lines of the EXTINFs from line i on. */
  function Extinfs(lines: seq<Line>, i: nat): seq<nat>
    requires i <= |lines|
    decreases |lines| - i
  {
    if i == |lines| then [] else (if lines[i].Inf? then [i] else []) + Extinfs(lines, i + 1)
  }

  /** Node k of the index stands for the EXTINF at line infs[k], with the section in force there. */
  ghost predicate Sourced(index: seq<IndexNode>, lines: seq<Line>, infs: seq<nat>) {
    |index| == |infs| && forall k :: 0 <= k < |infs| ==> IsSource(index[k], lines, infs[k])
  }

  predicate IsSource(node: IndexNode, lines: seq<Line>, i: nat) {
    i < |lines| && lines[i].Inf? && node.info == i && node.init == SectionAt(lines, 1, i, None)
  }

  lemma {:induction false} LineSources(t: Track, i: nat, marks: Marks, infs: seq<nat>)
    requires 1 <= i < |t.playlist| && Sourced(t.index, t.playlist, infs)
    requires marks.init == SectionAt(t.playlist, 1, i, None)
    ensures var (u, marks') := IndexLine(t, i, marks);
            && Sourced(u.index, t.playlist, infs + if t.playlist[i].Inf? then [i] else [])
            && marks'.init == SectionAt(t.playlist, 1, i + 1, None)
  {
    hide LiveAfter;
    assert infs + [] == infs;
  }

  lemma {:induction false} ExtinfsStep(lines: seq<Line>, i: nat, infs: seq<nat>)
    requires i < |lines|
    ensures infs + Extinfs(lines, i) == (infs + if lines[i].Inf? then [i] else []) + Extinfs(lines, i + 1)
  {
  }

  lemma {:induction false} IndexSources(t: Track, i: nat, marks: Marks, infs: seq<nat>)
    requires 1 <= i <= |t.playlist| && Sourced(t.index, t.playlist, infs)
    requires marks.init == SectionAt(t.playlist, 1, i, None)
    ensures Sourced(IndexFrom(t, i, marks).index, t.playlist, infs + Extinfs(t.playlist, i))
    decreases |t.playlist| - i
  {
    hide IndexFrom, IndexLine, SectionAt, Sourced;
    if i == |t.playlist| {
      IndexedNothing(t, marks);
      assert infs + Extinfs(t.playlist, i) == infs;
    } else {
      IndexStep(t, i, marks);
      LineSources(t, i, marks, infs);
      ExtinfsStep(t.playlist, i, infs);
      var (u, marks') := IndexLine(t, i, marks);
      IndexSources(u, i + 1, marks', infs + if t.playlist[i].Inf? then [i] else []);
    }
  }

  /** Indexing any playlist with a header: node k stands for EXTINF k, with the section in force at its line. */
  lemma {:induction false} IndexPlaylistSources(t: Track, isRefresh: bool)
    requires HasHeader(t.playlist)
    ensures Sourced(IndexPlaylist(t, isRefresh).index, t.playlist, Extinfs(t.playlist, 1))
  {
    hide IndexFrom;
    IndexSources(FlushIndex(t), 1, Marks(None, false), []);
    assert [] + Extinfs(t.playlist, 1) == Extinfs(t.playlist, 1);
  }

  /** Fragment k lasts as long as EXTINF k says. */
  lemma {:induction false} FragmentsLast(lines: seq<Line>, i: nat, pending: bool, k: nat)
    requires i <= |lines|
    ensures |Fragments(lines, i, pending)| == |Extinfs(lines, i)|
    ensures k < |Extinfs(lines, i)| ==>
              var e := Extinfs(lines, i)[k];
              i <= e < |lines| && lines[e].Inf? && Fragments(lines, i, pending)[k].duration == lines[e].duration
    decreases |lines| - i
  {
    if i < |lines| {
      if lines[i].Inf? {
        FragmentsLast(lines, i + 1, false, if k > 0 then k - 1 else 0);
      } else {
        FragmentsLast(lines, i + 1, pending || lines[i].Discontinuity?, k);
        assert [] + Extinfs(lines, i + 1) == Extinfs(lines, i + 1);
      }
    }
  }

  /** Whether a line says what kind the stream is. */
  predicate SaysKind(l: Line) {
    l.EndList? || l.PlaylistType?
  }

  lemma {:induction false} IndexFromSaysLive(t: Track, i: nat, marks: Marks)
    requires i <= |t.playlist|
    ensures var u, lines := IndexFrom(t, i, marks), t.playlist;
            && ((forall j :: i <= j < |lines| ==> !SaysKind(lines[j])) ==> u.live == t.live)
            && forall k :: i <= k < |lines| && SaysKind(lines[k]) &&
                           (forall j :: k < j < |lines| ==> !SaysKind(lines[j])) ==>
                 (u.live <==> lines[k] == PlaylistType(false))
    decreases |t.playlist| - i
  {
    hide IndexFrom, IndexLine;
    if i < |t.playlist| {
      IndexStep(t, i, marks);
      LineSaysLive(t, i, marks);
      var (u, marks') := IndexLine(t, i, marks);
      IndexFromSaysLive(u, i + 1, marks');
    } else {
      IndexedNothing(t, marks);
    }
  }

  lemma {:induction false} LineSaysLive(t: Track, i: nat, marks: Marks)
    requires i < |t.playlist|
    ensures IndexLine(t, i, marks).0.live ==
            if SaysKind(t.playlist[i]) then t.playlist[i] == PlaylistType(false) else t.live
  {
    hide ReadMark;
  }

  /** Indexing any playlist with a header: the stream is live if the last line that says its kind says that it
      is an event, on-demand if it says so or ends the list, and what it was if no line says its kind. */
  lemma {:induction false} IndexSaysLive(t: Track, isRefresh: bool, k: nat)
    requires HasHeader(t.playlist)
    ensures var u, lines := IndexPlaylist(t, isRefresh), t.playlist;
            && ((forall j :: 0 <= j < |lines| ==> !SaysKind(lines[j])) ==> u.live == t.live)
            && (k < |lines| && SaysKind(lines[k]) && (forall j :: k < j < |lines| ==> !SaysKind(lines[j])) ==>
                  (u.live <==> lines[k] == PlaylistType(false)))
  {
    hide IndexFrom;
    IndexFromSaysLive(FlushIndex(t), 1, Marks(None, false));
  }

  // ----- Periods: GetNextFragmentPeriodInfo, GetPeriodStartPosition --------------------------

  /** The first fragment from i on that ends after the target; |index| if there is none. */
  function EndingAfter(index: seq<IndexNode>, target: real, i: nat): (r: nat)
    requires i <= |index|
    ensures i <= r <= |index|
    ensures forall k :: i <= k < r ==> index[k].completion <= target
    ensures r < |index| ==> index[r].completion > target
    decreases |index| - i
  {
    if i == |index| || index[i].completion > target then i else EndingAfter(index, target, i + 1)
  }

  /** The number of leading periods that start at fragment idx or before. */
  function PeriodsUpTo(periods: seq<DiscontinuityNode>, idx: nat, i: nat): (r: nat)
    requires i <= |periods|
    ensures i <= r <= |periods|
    ensures forall m :: i <= m < r ==> periods[m].fragmentIdx <= idx
    ensures r < |periods| ==> periods[r].fragmentIdx > idx
    decreases |periods| - i
  {
    if i == |periods| || periods[i].fragmentIdx > idx then i else PeriodsUpTo(periods, idx, i + 1)
  }

  /** periodIdx and fragmentIdx are -1 when there is none. */
  datatype PeriodInfo = PeriodInfo(periodIdx: int, offset: real, fragmentIdx: int)

  function PeriodInfoAt(t: Track): PeriodInfo {
    var idx := EndingAfter(t.index, t.playTarget, 0);
    if idx == |t.index| || idx == 0 then PeriodInfo(-1, 0.0, -1)
    else
      var p := PeriodsUpTo(t.discontinuities, idx, 0);
      var start := if p == 0 then 0.0 else t.discontinuities[p - 1].position;
      PeriodInfo(p - 1, t.index[idx - 1].completion - start,
                 if p < |t.discontinuities| then t.discontinuities[p].fragmentIdx else -1)
  }

  function PeriodStart(periods: seq<DiscontinuityNode>, periodIdx: int): real {
    if 0 <= periodIdx < |periods| then periods[periodIdx].position else 0.0
  }

  lemma {:induction false} TotalMonotone(fs: seq<Fragment>, m: nat, n: nat)
    requires m <= n <= |fs| && forall k :: 0 <= k < |fs| ==> fs[k].duration >= 0.0
    ensures Total(fs, m) <= Total(fs, n)
    decreases n - m
  {
    if m < n {
      TotalMonotone(fs, m, n - 1);
    }
  }

  /** Period decomposition: the period's start plus the offset is the start of the first fragment
      that ends after the play target; the offset is never negative; the period is the last one
      starting at or before that fragment (none is reported for the very first fragment), and
      fragmentIdx is where the next period starts. */
  lemma {:induction false} PeriodDecomposition(t: Track, fs: seq<Fragment>)
    requires Describes(t.index, t.discontinuities, fs)
    requires forall k :: 0 <= k < |fs| ==> fs[k].duration >= 0.0
    ensures var idx := EndingAfter(t.index, t.playTarget, 0); var info := PeriodInfoAt(t); var ps := t.discontinuities;
            && (idx < |fs| ==> PeriodStart(ps, info.periodIdx) + info.offset == Total(fs, idx) && info.offset >= 0.0)
            && (0 < idx < |fs| ==>
                  && (forall m :: 0 <= m < |ps| ==> (ps[m].fragmentIdx <= idx <==> m <= info.periodIdx))
                  && info.fragmentIdx == if info.periodIdx + 1 < |ps| then ps[info.periodIdx + 1].fragmentIdx else -1)
            && (idx == 0 || idx == |fs| ==> info == PeriodInfo(-1, 0.0, -1))
  {
    var idx := EndingAfter(t.index, t.playTarget, 0);
    if 0 < idx < |fs| {
      var p := PeriodsUpTo(t.discontinuities, idx, 0);
      if p > 0 {
        TotalMonotone(fs, t.discontinuities[p - 1].fragmentIdx, idx);
      } else {
        TotalMonotone(fs, 0, idx);
      }
    }
  }
}
