/** What happens to the handed-out sequence when a refresh loses the current segment, and when
    the live stream ends. */
module LiveGaps {
  import opened Common
  import opened Playlist
  import opened TrackModel
  import opened WindowScan
  import opened LiveRun

  // ----- Any windows at all: numbers still increase -----------------------------------------

  /** The cursor stands on a segment of w or nowhere, and everything up to h was handed out. */
  ghost predicate Loose(t: Track, w: Window, b: Broadcast, h: int) {
    && t.live && t.playlistPosition >= 0.0 && t.playTarget >= 0.0 && t.fragmentDuration > 0.0
    && (t.fragmentURI == -1 || (w.Has(Current(t)) && t.fragmentURI == w.uriAt[Current(t) - w.first]))
    && h <= Current(t) && (Pending(t) ==> h < Current(t))
  }

  ghost predicate Playing(lines: seq<Line>, w: Window, b: Broadcast) {
    Positive(b) && StaysLive(lines) && IsWindow(lines, w, b)
  }

  /** r is t somewhere later in the window, or past its end. */
  ghost predicate Later(t: Track, r: Track, w: Window) {
    && r.playlist == t.playlist && r.live == t.live && r.playTarget == t.playTarget
    && r.playlistPosition >= 0.0 && r.fragmentDuration > 0.0 && Current(r) >= Current(t)
    && (if r.fragmentURI == -1 then Current(r) > Current(t) || r.playlistPosition == t.playlistPosition
        else Current(r) > Current(t) && w.Has(Current(r)) && r.fragmentURI == w.uriAt[Current(r) - w.first])
  }

  lemma {:induction false} ScanLater(t: Track, w: Window, b: Broadcast, j: nat)
    requires IsWindow(t.playlist, w, b) && Positive(b) && j <= w.Count() && Current(t) == w.first + j - 1
    requires t.playlistPosition >= 0.0 && t.fragmentDuration > 0.0
    ensures Later(t, Scan(t, w.Entry(j)), w)
    decreases w.Count() - j
  {
    hide Scan, IsSegment, AllPlain;
    if j == w.Count() {
      var u := ScanEnd(t, w, b);
    } else {
      assert b.duration(w.first + j) > 0.0;
      var u := ScanSegment(t, w, b, j);
      if !Reached(u) {
        ScanLater(u, w, b, j + 1);
      }
    }
  }

  lemma {:induction false} LooseSelect(t: Track, w: Window, b: Broadcast, h: int)
    requires Playing(t.playlist, w, b) && Loose(t, w, b, h) && t.fragmentURI != -1 && t.WellFormed()
    ensures var u := SelectFragment(t);
            && Playing(u.playlist, w, b) && (Requests(u) ==> h < Current(u) && !Pending(u))
            && Loose(u, w, b, if Requests(u) then Current(u) else h)
            && (Requests(u) ==> u.playTarget - u.fragmentDuration == u.playlistPosition)
  {
    if !Pending(t) {
      ScanLater(t, w, b, Current(t) + 1 - w.first);
    }
  }

  /** The segment requested is handed out, or due again from a lower profile. */
  lemma {:induction false} LooseDownload(u: Track, w: Window, b: Broadcast, h: int, outcome: Outcome)
    requires Playing(u.playlist, w, b) && Loose(u, w, b, Current(u)) && Requests(u) && u.WellFormed() && h < Current(u)
    requires u.playTarget - u.fragmentDuration == u.playlistPosition
    ensures var r := AfterDownload(u, u.fragmentDuration, outcome);
            && r.playlist == u.playlist && Loose(r, w, b, if outcome == RampedDown then h else Current(u))
            && u.playlist[u.fragmentURI].Uri? && Named(u.playlist, w, Out(Current(u), u.playlist[u.fragmentURI].uri))
  {
    UriAt(u.playlist, w, b, Current(u));
    hide Playing;
  }

  lemma {:induction false} LooseServe(t: Track, w: Window, b: Broadcast, h: int, initFetched: bool)
    requires Loose(t, w, b, h)
    ensures var v := ServeInit(t, initFetched);
            Loose(v, w, b, h) && v.playlist == t.playlist && v.fragmentURI == t.fragmentURI
  {
  }

  /** The step hands out the segment numbered n. */
  ghost predicate HandsOut(t: Track, w: Window, s: Step, n: int) {
    |Emits(t, s)| == 1 && Emits(t, s)[0].number == n && Named(t.playlist, w, Emits(t, s)[0])
  }

  lemma {:induction false} LooseTurn(t: Track, w: Window, b: Broadcast, h: int, initFetched: bool, outcome: Outcome)
    returns (h': int)
    requires Playing(t.playlist, w, b) && Loose(t, w, b, h)
    ensures var s := Turn(initFetched, outcome);
            && Playing(Apply(t, s).playlist, w, b) && Loose(Apply(t, s), w, b, h') && h' >= h
            && (Emits(t, s) == [] || (HandsOut(t, w, s, h') && h < h'))
  {
    hide SelectFragment, AfterDownload, Playing, Loose;
    h' := h;
    if Runs(t) {
      var v := ServeInit(t, initFetched);
      LooseServe(t, w, b, h, initFetched);
      if !v.injectInit {
        LooseSelect(v, w, b, h);
        var u := SelectFragment(v);
        if Requests(u) {
          LooseDownload(u, w, b, h, outcome);
          h' := if outcome == RampedDown then h else Current(u);
        }
      }
    }
  }

  lemma {:induction false} UriAt(lines: seq<Line>, w: Window, b: Broadcast, n: int)
    requires IsWindow(lines, w, b) && w.Has(n)
    ensures w.uriAt[n - w.first] < |lines| && lines[w.uriAt[n - w.first]].Uri?
  {
    assert IsSegment(lines, w, b, n - w.first);
  }

  /** Indexing a window moves nothing of the cursor but the initialization section. */
  lemma {:induction false} IndexMovesNothing(t: Track, w: Window, b: Broadcast)
    requires IsWindow(t.playlist, w, b) && Positive(b)
    ensures var u := IndexPlaylist(t, true);
            && u.duration > 0.0 && (StaysLive(t.playlist) && t.live ==> u.live)
            && u == t.(index := u.index, indexFirst := u.indexFirst, discontinuities := u.discontinuities,
                       duration := u.duration, initFragment := None, currentIdx := -1, live := u.live,
                       culledSeconds := u.culledSeconds)
  {
    IndexWindow(t, w, b);
    SpanPositive(b, w.first, w.Last() + 1);
  }

  lemma {:induction false} LooseRefresh(t: Track, w: Window, b: Broadcast, h: int, lines: seq<Line>, w': Window)
    requires Playing(t.playlist, w, b) && Loose(t, w, b, h) && t.WellFormed() && Playing(lines, w', b)
    ensures var t' := Refresh(t, lines); Playing(t'.playlist, w', b) && Loose(t', w', b, h)
  {
    var u := IndexPlaylist(t.(playlist := lines), true);
    IndexMovesNothing(t.(playlist := lines), w', b);
    hide IndexPlaylist;
    FindInWindow(u, w', b);
    assert b.duration(Max(Current(t), w'.first)) > 0.0 && b.duration(w'.Last()) > 0.0;
  }

  /** Every refreshed playlist is some live window of the broadcast; nothing is said about how it
      relates to the one before. */
  ghost predicate AnyWindows(b: Broadcast, steps: seq<Step>) {
    forall i :: 0 <= i < |steps| && steps[i].Refreshed? ==> Playing(steps[i].lines, steps[i].w, b)
  }

  ghost predicate Increasing(out: seq<Out>, h: int) {
    && (forall i :: 0 <= i < |out| ==> h < out[i].number)
    && (forall i, j :: 0 <= i < j < |out| ==> out[i].number < out[j].number)
  }

  lemma {:induction false} LooseWellFormed(t: Track, w: Window, b: Broadcast, h: int)
    requires Playing(t.playlist, w, b) && Loose(t, w, b, h)
    ensures t.WellFormed()
  {
    if t.fragmentURI != -1 {
      UriAt(t.playlist, w, b, Current(t));
    }
  }

  lemma {:induction false} LooseStep(t: Track, w: Window, b: Broadcast, h: int, s: Step) returns (h': int)
    requires Playing(t.playlist, w, b) && Loose(t, w, b, h)
    requires s.Refreshed? ==> Playing(s.lines, s.w, b)
    ensures var w' := NextWindow(w, s);
            && Playing(Apply(t, s).playlist, w', b) && Loose(Apply(t, s), w', b, h') && h' >= h
            && (Emits(t, s) == [] || (HandsOut(t, w, s, h') && h < h'))
  {
    h' := h;
    if s.Turn? {
      h' := LooseTurn(t, w, b, h, s.initFetched, s.outcome);
    } else if s.Refreshed? {
      LooseWellFormed(t, w, b, h);
      LooseRefresh(t, w, b, h, s.lines, s.w);
    }
  }

  /** Whatever windows the server sends, gaps and stalls included, no segment is handed out twice
      or out of order, and each goes out under the URI that the playlist held lists for its number. */
  lemma {:induction false} NumbersIncrease(t: Track, w: Window, b: Broadcast, h: int, steps: seq<Step>)
    requires Playing(t.playlist, w, b) && Loose(t, w, b, h) && AnyWindows(b, steps)
    ensures Increasing(Emitted(t, steps), h) && AllNamed(t, w, steps)
    decreases |steps|
  {
    hide Apply, Emits, Playing, Loose;
    if steps != [] {
      var s := steps[0];
      assert AnyWindows(b, steps[1..]);
      var h' := LooseStep(t, w, b, h, s);
      NumbersIncrease(Apply(t, s), NextWindow(w, s), b, h', steps[1..]);
    }
  }

  // ----- A gap: the window moved past the current segment -----------------------------------

  /** After a gap the cursor is placed on the first segment of the new window. */
  lemma {:induction false} GapRefresh(t: Track, w: Window, b: Broadcast, origin: int, lines: seq<Line>, w': Window)
    requires InStep(t, w, b, origin) && t.WellFormed()
    requires Playing(lines, w', b) && w'.first > Current(t)
    ensures var r := Refresh(t, lines);
            && r.WellFormed() && r.playlist == lines && r.fragmentURI == w'.uriAt[0] && Current(r) == w'.first
            && r.fragmentDuration == b.duration(w'.first)
            && r.playlistPosition == t.playlistPosition && r.playTarget == t.playTarget
  {
    IndexMovesNothing(t.(playlist := lines), w', b);
    hide IndexPlaylist;
    FindInWindow(IndexPlaylist(t.(playlist := lines), true), w', b);
    UriAt(lines, w', b, w'.first);
  }

  /** A walk from the first segment's URI with its clock running. */
  lemma {:induction false} SecondSegment(r: Track, w: Window, b: Broadcast)
    requires Playing(r.playlist, w, b) && w.Count() >= 2 && r.WellFormed()
    requires r.fragmentURI == w.uriAt[0] && Current(r) == w.first && r.fragmentDuration == b.duration(w.first)
    requires 0.0 <= r.playlistPosition != r.playTarget && r.playTarget >= 0.0
    ensures var u := NextFragment(r); var at := r.playlistPosition + b.duration(w.first);
            && u.fragmentURI != w.uriAt[0]
            && (u.fragmentURI == w.uriAt[1] <==> at + b.duration(w.first + 1) > r.playTarget ||
                                                 r.playTarget - at < THRESHOLD)
  {
    hide Scan, IsSegment, AllPlain;
    assert b.duration(w.first) > 0.0 && b.duration(w.first + 1) > 0.0;
    var u := ScanSegment(r, w, b, 1);
    UriAt(r.playlist, w, b, w.first);
    UriOrder(r.playlist, w, b, 0, 1);
    if !Reached(u) {
      ScanLater(u, w, b, 2);
      var z := Scan(u, w.Entry(2));
      if z.fragmentURI != -1 {
        UriOrder(r.playlist, w, b, 1, Current(z) - w.first);
      }
    }
  }

  /** Behind the only segment of a window there is nothing. */
  lemma {:induction false} OnlySegment(r: Track, w: Window, b: Broadcast)
    requires Playing(r.playlist, w, b) && w.Count() == 1 && r.WellFormed()
    requires r.fragmentURI == w.uriAt[0] && 0.0 <= r.playlistPosition != r.playTarget && r.playTarget >= 0.0
    ensures NextFragment(r).fragmentURI == -1
  {
    UriAt(r.playlist, w, b, w.first);
    var u := ScanEnd(r, w, b);
  }

  /** The first segment after a gap is handed out if and only if a segment was pending; otherwise
      the walk steps over it, and the second one, if there is one, comes next if and only if the two
      together outlast the segment that was lost (or the difference is within tolerance). */
  lemma {:induction false} GapOutcome(t: Track, w: Window, b: Broadcast, origin: int, lines: seq<Line>, w': Window)
    requires InStep(t, w, b, origin) && t.WellFormed()
    requires Playing(lines, w', b) && w'.first > Current(t)
    ensures Refresh(t, lines).WellFormed()
    ensures var u := NextFragment(Refresh(t, lines)); var f := w'.first; var lost := b.duration(Current(t));
            && (u.fragmentURI == w'.uriAt[0] <==> Pending(t))
            && (!Pending(t) ==>
                  if w'.Count() == 1 then u.fragmentURI == -1
                  else u.fragmentURI == w'.uriAt[1] <==>
                       b.duration(f) + b.duration(f + 1) > lost || lost - b.duration(f) < THRESHOLD)
  {
    PointsInside(t, w, b, origin);
    GapRefresh(t, w, b, origin, lines, w');
    UriAt(lines, w', b, w'.first);
    hide IndexPlaylist, Scan;
    if Pending(t) {
      NextPending(Refresh(t, lines));
    } else if w'.Count() == 1 {
      OnlySegment(Refresh(t, lines), w', b);
    } else {
      SecondSegment(Refresh(t, lines), w', b);
    }
  }

  lemma {:induction false} UriOrder(lines: seq<Line>, w: Window, b: Broadcast, i: nat, j: nat)
    requires IsWindow(lines, w, b) && i < j < w.Count()
    ensures w.uriAt[i] < w.uriAt[j]
    decreases j
  {
    assert IsSegment(lines, w, b, j);
    if i < j - 1 {
      UriOrder(lines, w, b, i, j - 1);
    }
  }

  // ----- Walking from the start: seeks, rendition switches and the end of a live stream ------

  /** Segment n is where a walk from the start of the window stops for the given target. */
  ghost predicate Covers(b: Broadcast, first: int, n: int, target: real) {
    Span(b, first, n) + b.duration(n) > target || target - Span(b, first, n) < THRESHOLD
  }

  /** Where times are milliseconds, a segment covers a target that it ends after or that is at most a tenth of
      a second behind its start. */
  lemma {:induction false} CoversInMilliseconds(b: Broadcast, first: int, n: int, target: real, behind: int)
    requires target - Span(b, first, n) == behind as real / 1000.0
    ensures Covers(b, first, n, target) <==> Span(b, first, n) + b.duration(n) > target || behind <= 100
  {
    hide Span;
  }

  /** t reached the entry of segment j from the start of the window. */
  ghost predicate Walked(t: Track, w: Window, b: Broadcast, j: nat) {
    if j == 0 then t.playlistPosition == -1.0
    else t.playlistPosition == Span(b, w.first, w.first + j - 1) && t.fragmentDuration == b.duration(w.first + j - 1)
  }

  /** One segment of a walk from the start: it stops there if and only if the segment covers the target. */
  lemma {:induction false} WalkSegment(t: Track, w: Window, b: Broadcast, j: nat) returns (u: Track)
    requires IsWindow(t.playlist, w, b) && Positive(b) && j < w.Count() && Current(t) == w.first + j - 1 &&
               Walked(t, w, b, j)
    ensures SameButTags(t.(playlistPosition := Span(b, w.first, w.first + j),
                           fragmentDuration := b.duration(w.first + j),
                           nextMediaSequenceNumber := w.first + j + 1), u)
    ensures StaysLive(t.playlist) ==> u.reachedEndList == t.reachedEndList
    ensures Walked(u, w, b, j + 1)
    ensures Scan(t, w.Entry(j)) ==
            if Covers(b, w.first, w.first + j, t.playTarget) then u.(fragmentURI := w.uriAt[j])
            else Scan(u, w.Entry(j + 1))
  {
    hide Scan, IsWindow, StaysLive;
    if j > 0 {
      SpanPositive(b, w.first, w.first + j - 1);
    }
    u := ScanSegment(t, w, b, j);
  }

  /** The walk from segment j stops at n, the first segment that covers the target. */
  lemma {:induction false} WalkTo(t: Track, w: Window, b: Broadcast, j: nat, n: int)
    requires IsWindow(t.playlist, w, b) && Positive(b) && w.first + j <= n && w.Has(n) && Current(t) == w.first + j - 1
    requires Walked(t, w, b, j)
    requires Covers(b, w.first, n, t.playTarget)
    requires forall m :: w.first + j <= m < n ==> !Covers(b, w.first, m, t.playTarget)
    ensures var r := Scan(t, w.Entry(j));
            SameButTags(t.(fragmentURI := w.uriAt[n - w.first], playlistPosition := Span(b, w.first, n),
                           fragmentDuration := b.duration(n), nextMediaSequenceNumber := n + 1), r)
            && (StaysLive(t.playlist) ==> r.reachedEndList == t.reachedEndList)
    decreases n - w.first - j
  {
    hide Scan, IsWindow, StaysLive, Walked, Covers;
    var u := WalkSegment(t, w, b, j);
    if w.first + j < n {
      WalkTo(u, w, b, j + 1, n);
    }
  }

  /** t is about to walk its playlist from the start. */
  predicate AtStart(t: Track) {
    t.fragmentURI == 0 && t.playlistPosition == -1.0 && t.playTarget >= 0.0
  }

  lemma {:induction false} WalkFromStart(t: Track, w: Window, b: Broadcast, n: int)
    requires IsWindow(t.playlist, w, b) && Positive(b) && w.Has(n) && AtStart(t)
    requires Covers(b, w.first, n, t.playTarget)
    requires forall m :: w.first <= m < n ==> !Covers(b, w.first, m, t.playTarget)
    ensures var r := NextFragment(t);
            SameButTags(t.(fragmentURI := w.uriAt[n - w.first], playlistPosition := Span(b, w.first, n),
                           fragmentDuration := b.duration(n), nextMediaSequenceNumber := n + 1), r)
  {
    var u := ScanPlain(t, 0, w.sequenceAt);
    var v := u.(nextMediaSequenceNumber := w.first);
    assert Scan(u, w.sequenceAt) == Scan(v, w.Entry(0));
    WalkTo(v, w, b, 0, n);
  }

  /** A seek before the beginning plays from the beginning. */
  lemma {:induction false} NegativeSeek(t: Track, w: Window, b: Broadcast)
    requires IsWindow(t.playlist, w, b) && Positive(b) && t.fragmentURI == 0 && t.playlistPosition == -1.0
    requires t.playTarget < 0.0
    ensures var r := NextFragment(t);
            r.fragmentURI == w.uriAt[0] && r.playlistPosition == r.playTarget == 0.0 && Current(r) == w.first
  {
    var u := t.(playTarget := 0.0);
    assert Covers(b, w.first, w.first, 0.0) && b.duration(w.first) > 0.0;
    hide IsWindow, Covers;
    WindowHasFirst(t.playlist, w, b);
    WalkFromStart(u, w, b, w.first);
    assert NextFragment(t) == NextFragment(u);
  }

  lemma {:induction false} WindowHasFirst(lines: seq<Line>, w: Window, b: Broadcast)
    requires IsWindow(lines, w, b)
    ensures w.Has(w.first)
  {
  }

  /** The number of URI lines among the first k. */
  function Segments(lines: seq<Line>, k: nat): nat
    requires k <= |lines|
  {
    if k == 0 then 0 else Segments(lines, k - 1) + if lines[k - 1].Uri? then 1 else 0
  }

  predicate Unnumbered(lines: seq<Line>) {
    forall i :: 0 <= i < |lines| ==> !lines[i].MediaSequence?
  }

  lemma {:induction false} ScanCounts(t: Track, i: nat)
    requires i <= |t.playlist| && Unnumbered(t.playlist)
    ensures var r, lines := Scan(t, i), t.playlist;
            r.fragmentURI != -1 ==>
              && lines[r.fragmentURI].Uri?
              && r.nextMediaSequenceNumber ==
                   t.nextMediaSequenceNumber + Segments(lines, r.fragmentURI + 1) - Segments(lines, i)
    decreases |t.playlist| - i
  {
    hide Scan, ReadTag, Reached, Unnumbered;
    if i == |t.playlist| {
      ScanPastEnd(t);
    } else if t.playlist[i].Uri? {
      ScanUri(t, i);
      if !Reached(CountUri(t)) {
        ScanCounts(CountUri(t), i + 1);
      }
    } else {
      ScanTag(t, i);
      TagKeepsNumber(t, i);
      ScanCounts(ReadTag(t.playlist[i], t), i + 1);
    }
  }

  lemma {:induction false} TagKeepsNumber(t: Track, i: nat)
    requires i < |t.playlist| && Unnumbered(t.playlist) && !t.playlist[i].Uri?
    ensures var u := ReadTag(t.playlist[i], t);
            u.playlist == t.playlist && u.nextMediaSequenceNumber == t.nextMediaSequenceNumber
  {
  }

  lemma {:induction false} IndexKeepsFirst(t: Track, i: nat, marks: Marks)
    requires i <= |t.playlist| && Unnumbered(t.playlist)
    ensures IndexFrom(t, i, marks).indexFirst == t.indexFirst
    decreases |t.playlist| - i
  {
    hide IndexFrom;
    if i == |t.playlist| {
      IndexedNothing(t, marks);
    } else {
      IndexStep(t, i, marks);
      IndexKeepsFirst(IndexLine(t, i, marks).0, i + 1, IndexLine(t, i, marks).1);
    }
  }

  /** Segments of a playlist that does not number them count from zero, for the walk of a new track as for
      the index. */
  lemma {:induction false} UnnumberedFromZero(lines: seq<Line>, seekPosition: real, isRefresh: bool)
    requires lines != [] && Unnumbered(lines)
    ensures var r := NextFragment(NewTrack(lines, seekPosition));
            r.fragmentURI != -1 ==> Current(r) == Segments(lines, r.fragmentURI)
    ensures IndexPlaylist(NewTrack(lines, seekPosition), isRefresh).indexFirst == 0
  {
    hide IndexFrom, Scan, Unnumbered;
    var t := NewTrack(lines, seekPosition);
    ScanCounts(ClampTarget(t), 0);
    if HasHeader(lines) {
      IndexKeepsFirst(FlushIndex(t), 1, Marks(None, false));
    }
  }

  /** A walk that does not stop at n, nor before, does not stop at n at all. */
  lemma {:induction false} NeverReturns(t: Track, w: Window, b: Broadcast, n: int)
    requires IsWindow(t.playlist, w, b) && Positive(b) && w.Has(n) && AtStart(t)
    requires forall m :: w.first <= m <= n ==> !Covers(b, w.first, m, t.playTarget)
    ensures NextFragment(t).fragmentURI != w.uriAt[n - w.first]
  {
    var u := ScanPlain(t, 0, w.sequenceAt);
    var v := u.(nextMediaSequenceNumber := w.first);
    assert Scan(u, w.sequenceAt) == Scan(v, w.Entry(0));
    WalkPast(v, w, b, 0, n);
  }

  lemma {:induction false} WalkPast(t: Track, w: Window, b: Broadcast, j: nat, n: int)
    requires IsWindow(t.playlist, w, b) && Positive(b) && w.first + j <= n && w.Has(n) && Current(t) == w.first + j - 1
    requires Walked(t, w, b, j)
    requires forall m :: w.first + j <= m <= n ==> !Covers(b, w.first, m, t.playTarget)
    ensures Scan(t, w.Entry(j)).fragmentURI != w.uriAt[n - w.first]
    decreases n - w.first - j
  {
    hide Scan, IsWindow, Walked, Covers;
    var u := WalkSegment(t, w, b, j);
    if w.first + j < n {
      WalkPast(u, w, b, j + 1, n);
    } else {
      assert b.duration(n) > 0.0;
      SpanPositive(b, w.first, n);
      UriAt(t.playlist, w, b, n);
      ScanLater(u, w, b, j + 1);
      var z := Scan(u, w.Entry(j + 1));
      if z.fragmentURI != -1 {
        UriOrder(t.playlist, w, b, n - w.first, Current(z) - w.first);
      }
    }
  }

  /** The first segment from m on that covers the target, if there is one up to n. */
  ghost function FirstCovering(b: Broadcast, first: int, m: int, n: int, target: real): (r: int)
    ensures m <= n ==> m <= r <= n + 1
    ensures forall x :: m <= x < r ==> !Covers(b, first, x, target)
    ensures m <= r <= n ==> Covers(b, first, r, target)
    decreases n - m
  {
    if m > n || Covers(b, first, m, target) then m else FirstCovering(b, first, m + 1, n, target)
  }

  /** A walk from the start hands out segment n if and only if n is the first one that covers the target. */
  lemma {:induction false} WalkStopsAt(t: Track, w: Window, b: Broadcast, n: int)
    requires IsWindow(t.playlist, w, b) && Positive(b) && w.Has(n) && AtStart(t)
    ensures NextFragment(t).fragmentURI == w.uriAt[n - w.first] <==>
              FirstCovering(b, w.first, w.first, n, t.playTarget) == n
  {
    hide NextFragment, Covers;
    var m := FirstCovering(b, w.first, w.first, n, t.playTarget);
    if m <= n {
      WalkFromStart(t, w, b, m);
      if m < n {
        UriOrder(t.playlist, w, b, m - w.first, n - w.first);
      }
    } else {
      NeverReturns(t, w, b, n);
    }
  }

  /** With the target culled seconds behind the start of segment n, n is the first one covering it if and
      only if it is longer than that (or the walk tolerates the difference), and the one before is not
      within the walk's tolerance. */
  lemma {:induction false} FirstCoveringIs(b: Broadcast, first: int, n: int, culled: real)
    requires Positive(b) && first <= n && culled >= 0.0
    ensures FirstCovering(b, first, first, n, Span(b, first, n) + culled) == n <==>
            && (culled < b.duration(n) || culled < THRESHOLD)
            && (n == first || culled + b.duration(n - 1) >= THRESHOLD)
  {
    hide FirstCovering;
    var target := Span(b, first, n) + culled;
    assert Covers(b, first, n, target) <==> culled < b.duration(n) || culled < THRESHOLD;
    var r := FirstCovering(b, first, first, n, target);
    if n > first {
      assert Span(b, first, n) == Span(b, first, n - 1) + b.duration(n - 1);
      if culled + b.duration(n - 1) < THRESHOLD {
        assert Covers(b, first, n - 1, target);
      } else {
        forall m | first <= m < n ensures !Covers(b, first, m, target) {
          SpanSplit(b, first, m, n - 1);
          SpanSplit(b, first, m + 1, n);
          SpanPositive(b, m, n - 1);
          SpanPositive(b, m + 1, n);
          assert Span(b, first, m + 1) == Span(b, first, m) + b.duration(m);
        }
      }
    }
  }

  /** The refresh of RestartContinuity: the live stream ended, and the new window still lists the next
      segment. */
  ghost predicate OnDemandRestart(t: Track, w: Window, b: Broadcast, origin: int, lines: seq<Line>, w': Window) {
    && InStep(t, w, b, origin) && t.WellFormed()
    && IsWindow(lines, w', b) && w.first <= w'.first && w'.Has(NextOut(t))
    && !Refresh(t, lines).live
  }

  /** The walk starts with its target the culled time behind the next segment. */
  lemma {:induction false} RestartTarget(t: Track, w: Window, b: Broadcast, origin: int, lines: seq<Line>, w': Window)
    requires OnDemandRestart(t, w, b, origin, lines, w')
    ensures var r, culled := Refresh(t, lines), Span(b, origin, w'.first);
            && r.playlist == lines && AtStart(r) && culled >= 0.0
            && r.playTarget == Span(b, w'.first, NextOut(t)) + culled
  {
    PointsInside(t, w, b, origin);
    IndexMovesNothing(t.(playlist := lines), w', b);
    hide IndexPlaylist, OnAir, Find;
    SpanSplit(b, origin, w'.first, NextOut(t));
    SpanPositive(b, origin, w'.first);
    SpanPositive(b, w'.first, NextOut(t));
    assert Span(b, origin, Current(t) + 1) == Span(b, origin, Current(t)) + b.duration(Current(t));
  }

  /** When a refresh turns a live track on-demand, the walk restarts at the first segment of the window
      while the play target still counts from the start of the session.  The next segment follows the
      current one if and only if the time culled so far is shorter than that segment or within the walk's
      tolerance, and with the segment before it no longer within the tolerance. */
  lemma {:induction false} RestartContinuity(t: Track, w: Window, b: Broadcast, origin: int, lines: seq<Line>,
                                             w': Window)
    requires OnDemandRestart(t, w, b, origin, lines, w')
    ensures Refresh(t, lines).WellFormed()
    ensures var u := NextFragment(Refresh(t, lines)); var n, culled := NextOut(t), Span(b, origin, w'.first);
            u.fragmentURI == w'.uriAt[n - w'.first] <==>
              && (culled < b.duration(n) || culled < THRESHOLD)
              && (n == w'.first || culled + b.duration(n - 1) >= THRESHOLD)
  {
    hide Refresh, InStep, IsWindow, NextFragment, FirstCovering, Span, NextOut;
    RestartTarget(t, w, b, origin, lines, w');
    RestartInside(t, w, b, origin, lines, w');
    WalkStopsAt(Refresh(t, lines), w', b, NextOut(t));
    FirstCoveringIs(b, w'.first, NextOut(t), Span(b, origin, w'.first));
  }

  lemma {:induction false} RestartInside(t: Track, w: Window, b: Broadcast, origin: int, lines: seq<Line>, w': Window)
    requires OnDemandRestart(t, w, b, origin, lines, w')
    ensures Positive(b) && w'.first <= NextOut(t) && Refresh(t, lines).WellFormed()
  {
    hide IsSegment, Find, IndexPlaylist;
    RestartTarget(t, w, b, origin, lines, w');
  }
}
