/** Whole runs of the fetch loop over a sliding live playlist: which segments are handed out, and
    where they sit on the timeline. */
module LiveRun {
  import opened Common
  import opened Playlist
  import opened TrackModel
  import opened WindowScan

  /** A segment handed out: its media sequence number and its URI. */
  datatype Out = Out(number: int, uri: string)

  /** w describes the refreshed playlist; the engine sees only its lines. */
  datatype Step =
    | Turn(initFetched: bool, outcome: Outcome)
    | Refreshed(lines: seq<Line>, ghost w: Window)
    | RefreshFailed
    | ProfileChanged

  /** The loop takes a turn only while fragmentURI points to a fragment. */
  predicate Runs(t: Track) {
    t.WellFormed() && t.fragmentURI != -1
  }

  function Apply(t: Track, s: Step): Track {
    match s
    case Turn(initFetched, outcome) => if Runs(t) then LoopTurn(t, initFetched, outcome) else t
    case Refreshed(lines, _) => Refresh(t, lines)
    case RefreshFailed => t
    case ProfileChanged => t.(injectInit := true)
  }

  /** The segment a step hands out, if any; one abandoned for a lower profile does not count. */
  function Emits(t: Track, s: Step): seq<Out> {
    if s.Turn? && Runs(t) && !ServeInit(t, s.initFetched).injectInit then
      var u := SelectFragment(ServeInit(t, s.initFetched));
      if Requests(u) && s.outcome != RampedDown && u.playlist[u.fragmentURI].Uri?
      then [Out(u.nextMediaSequenceNumber - 1, u.playlist[u.fragmentURI].uri)] else []
    else []
  }

  function After(t: Track, steps: seq<Step>): Track
    decreases |steps|
  {
    if steps == [] then t else After(Apply(t, steps[0]), steps[1..])
  }

  function Emitted(t: Track, steps: seq<Step>): seq<Out>
    decreases |steps|
  {
    if steps == [] then [] else Emits(t, steps[0]) + Emitted(Apply(t, steps[0]), steps[1..])
  }

  ghost function NextWindow(w: Window, s: Step): Window {
    if s.Refreshed? then s.w else w
  }

  ghost function FinalWindow(w: Window, steps: seq<Step>): Window
    decreases |steps|
  {
    if steps == [] then w else FinalWindow(NextWindow(w, steps[0]), steps[1..])
  }

  /** The segment goes out under the URI that the playlist, with window w, lists for its number. */
  ghost predicate Named(lines: seq<Line>, w: Window, o: Out) {
    w.Has(o.number) && w.uriAt[o.number - w.first] < |lines| && lines[w.uriAt[o.number - w.first]] == Uri(o.uri)
  }

  /** Every segment handed out goes out under the URI that the playlist held at that time lists for it. */
  ghost predicate AllNamed(t: Track, w: Window, steps: seq<Step>)
    decreases |steps|
  {
    steps == [] ||
    ((forall o :: o in Emits(t, steps[0]) ==> Named(t.playlist, w, o)) &&
     AllNamed(Apply(t, steps[0]), NextWindow(w, steps[0]), steps[1..]))
  }

  // ----- The state between steps ------------------------------------------------------------

  function Current(t: Track): int { t.nextMediaSequenceNumber - 1 }

  /** The current segment was selected but not handed out yet. */
  predicate Pending(t: Track) { t.playTarget == t.playlistPosition }

  /** The number the next segment handed out must have. */
  function NextOut(t: Track): int { if Pending(t) then Current(t) else Current(t) + 1 }

  /** The playlist held is a live window w of b, and it is indexed. */
  ghost predicate OnAir(playlist: seq<Line>, index: seq<IndexNode>, indexFirst: int, w: Window, b: Broadcast) {
    Positive(b) && StaysLive(playlist) && IsWindow(playlist, w, b) && Indexed(index, indexFirst, w, b)
  }

  /** The cursor stands on a segment of w; origin is the first segment of the session, where both
      the playlist position and the culled time were zero. */
  ghost predicate AtSegment(t: Track, w: Window, b: Broadcast, origin: int) {
    && t.live && w.Has(Current(t)) && origin <= w.first
    && t.fragmentDuration == b.duration(Current(t))
    && (t.fragmentURI == w.uriAt[Current(t) - w.first] || (t.fragmentURI == -1 && !Pending(t)))
    && t.playlistPosition == Span(b, origin, Current(t))
    && (Pending(t) || t.playTarget == t.playlistPosition + t.fragmentDuration)
    && t.culledSeconds == Span(b, origin, w.first)
  }

  /** The track plays b from the window w. */
  ghost predicate InStep(t: Track, w: Window, b: Broadcast, origin: int) {
    OnAir(t.playlist, t.index, t.indexFirst, w, b) && AtSegment(t, w, b, origin)
  }

  /** t' follows t without losing or repeating a segment while out is handed out. */
  ghost predicate Follows(t: Track, t': Track, w: Window, out: seq<Out>) {
    if out == [] then NextOut(t') == NextOut(t)
    else
      |out| == 1 && out[0].number == NextOut(t) && Named(t.playlist, w, out[0]) && NextOut(t') == NextOut(t) + 1
  }

  lemma {:induction false} PointsInside(t: Track, w: Window, b: Broadcast, origin: int)
    requires InStep(t, w, b, origin)
    ensures t.WellFormed()
    ensures t.fragmentURI != -1 ==> t.playlist[t.fragmentURI].Uri?
    ensures t.playlistPosition >= 0.0 && t.fragmentDuration > 0.0
  {
    SpanPositive(b, origin, Current(t));
    assert IsSegment(t.playlist, w, b, Current(t) - w.first);
  }

  lemma {:induction false} NextPending(t: Track)
    requires t.WellFormed() && Pending(t) && t.playTarget >= 0.0
    ensures NextFragment(t) == t
  {
  }

  /** A track whose segment was handed out runs dry at the end of the window ... */
  lemma {:induction false} NextRunsDry(t: Track, w: Window, b: Broadcast)
    requires IsWindow(t.playlist, w, b) && Current(t) == w.Last()
    requires t.fragmentURI == w.uriAt[w.Count() - 1] && t.WellFormed() && t.playTarget > t.playlistPosition >= 0.0
    ensures SameButTags(t.(fragmentURI := -1), NextFragment(t))
  {
    var v := ScanEnd(t, w, b);
  }

  /** ... and advances to the next segment anywhere else. */
  lemma {:induction false} NextAdvances(t: Track, w: Window, b: Broadcast)
    requires IsWindow(t.playlist, w, b) && Positive(b) && w.first <= Current(t) < w.Last()
    requires t.fragmentURI == w.uriAt[Current(t) - w.first] && t.WellFormed()
    requires t.playlistPosition >= 0.0 && t.fragmentDuration > 0.0 &&
               t.playTarget == t.playlistPosition + t.fragmentDuration
    ensures SameButTags(t.(fragmentURI := w.uriAt[Current(t) + 1 - w.first], playlistPosition := t.playTarget,
                           fragmentDuration := b.duration(Current(t) + 1),
                           nextMediaSequenceNumber := t.nextMediaSequenceNumber + 1), NextFragment(t))
  {
    assert b.duration(Current(t) + 1) > 0.0;
    var v := ScanSegment(t, w, b, Current(t) + 1 - w.first);
  }

  lemma {:induction false} SelectInStep(t: Track, w: Window, b: Broadcast, origin: int)
    requires InStep(t, w, b, origin) && t.fragmentURI != -1 && t.WellFormed() && !t.injectInit
    ensures var u := SelectFragment(t);
            && InStep(u, w, b, origin)
            && (Requests(u) ==> Current(u) == NextOut(t) && !Pending(u))
            && (!Requests(u) ==> NextOut(u) == NextOut(t))
            && (NextOut(t) <= w.Last() ==> u.fragmentURI != -1)
            && (u.fragmentURI != -1 && u.injectInit ==> Pending(u))
  {
    PointsInside(t, w, b, origin);
    if Pending(t) {
      NextPending(t);
    } else if Current(t) == w.Last() {
      NextRunsDry(t, w, b);
    } else {
      NextAdvances(t, w, b);
    }
  }

  lemma {:induction false} ServeInStep(t: Track, w: Window, b: Broadcast, origin: int, initFetched: bool)
    requires InStep(t, w, b, origin)
    ensures var v := ServeInit(t, initFetched);
            && InStep(v, w, b, origin) && NextOut(v) == NextOut(t) && v.WellFormed() && v.fragmentURI == t.fragmentURI
  {
    PointsInside(t, w, b, origin);
    hide OnAir;
  }

  /** The segment requested is handed out, or due again from a lower profile. */
  lemma {:induction false} DownloadInStep(u: Track, w: Window, b: Broadcast, origin: int, outcome: Outcome)
    requires InStep(u, w, b, origin) && u.WellFormed() && Requests(u) && !Pending(u)
    ensures var r := AfterDownload(u, u.fragmentDuration, outcome);
            && InStep(r, w, b, origin) && NextOut(r) == (if outcome == RampedDown then Current(u) else Current(u) + 1)
            && u.playlist[u.fragmentURI].Uri? && Named(u.playlist, w, Out(Current(u), u.playlist[u.fragmentURI].uri))
  {
    PointsInside(u, w, b, origin);
    hide OnAir;
  }

  lemma {:induction false} LiveTurn(t: Track, w: Window, b: Broadcast, origin: int, initFetched: bool, outcome: Outcome)
    requires InStep(t, w, b, origin)
    ensures var t' := Apply(t, Turn(initFetched, outcome));
            InStep(t', w, b, origin) && Follows(t, t', w, Emits(t, Turn(initFetched, outcome)))
  {
    hide SelectFragment, AfterDownload, OnAir, AtSegment, NextOut, Pending;
    if Runs(t) {
      var v := ServeInit(t, initFetched);
      ServeInStep(t, w, b, origin, initFetched);
      if !v.injectInit {
        var u := SelectFragment(v);
        SelectInStep(v, w, b, origin);
        if Requests(u) {
          DownloadInStep(u, w, b, origin, outcome);
        }
      }
    }
  }

  /** A profile change changes nothing but the wait for its initialization section: once that arrives, the
      turn leaves the state, and hands out the segment, that it would have without the change; before,
      while a section is known, turns do nothing. */
  lemma {:induction false} ProfileChangeDelays(t: Track, outcome: Outcome)
    requires Runs(t)
    ensures var p := Apply(t, ProfileChanged);
            && Apply(p, Turn(true, outcome)) == Apply(t, Turn(true, outcome))
            && Emits(p, Turn(true, outcome)) == Emits(t, Turn(true, outcome))
            && (t.initFragment.Some? ==> Apply(p, Turn(false, outcome)) == p && Emits(p, Turn(false, outcome)) == [])
  {
    hide FetchFragment, SelectFragment;
    assert ServeInit(Apply(t, ProfileChanged), true) == ServeInit(t, true);
  }

  lemma {:induction false} LiveIndex(t: Track, w: Window, b: Broadcast, origin: int, w': Window)
    requires Indexed(t.index, t.indexFirst, w, b) && AtSegment(t, w, b, origin) && Positive(b)
    requires IsWindow(t.playlist, w', b) && StaysLive(t.playlist) && w.first <= w'.first && w'.Has(Current(t))
    ensures var u := IndexPlaylist(t, true);
            && Indexed(u.index, u.indexFirst, w', b) && u.live && u.duration > 0.0
            && u == t.(index := u.index, indexFirst := u.indexFirst, discontinuities := u.discontinuities,
                       duration := u.duration, initFragment := None, currentIdx := -1,
                       culledSeconds := Span(b, origin, w'.first))
  {
    hide IndexPlaylist, Indexed, IsWindow, StaysLive, Positive;
    IndexRefreshed(t, w, b, w');
    SpanSplit(b, w.first, w'.first, Current(t) + 1);
    SpanSplit(b, origin, w.first, w'.first);
    SpanPositive(b, w.first, w'.first);
    SpanPositive(b, w'.first, w'.Last() + 1);
  }

  /** A live refresh onto a later window that still lists the current segment. */
  lemma {:induction false} LiveRefresh(t: Track, w: Window, b: Broadcast, origin: int, lines: seq<Line>, w': Window)
    requires InStep(t, w, b, origin)
    requires IsWindow(lines, w', b) && StaysLive(lines) && w.first <= w'.first && w'.Has(Current(t))
    ensures var t' := Apply(t, Refreshed(lines, w'));
            InStep(t', w', b, origin) && NextOut(t') == NextOut(t) && t'.fragmentURI != -1 && t'.playlist == lines
  {
    PointsInside(t, w, b, origin);
    LiveIndex(t.(playlist := lines), w, b, origin, w');
    var u := IndexPlaylist(t.(playlist := lines), true);
    hide IndexPlaylist, Find, Indexed, Positive, Span;
    FindInWindow(u, w', b);
  }

  /** A profile change together with the refresh it causes, which brings the same segments under other URIs:
      the track stays in step, and the segment that was due is the next one, under its new URI. */
  lemma {:induction false} ProfileSwitches(t: Track, w: Window, b: Broadcast, origin: int, lines: seq<Line>, w': Window,
                                           initFetched: bool, outcome: Outcome)
    requires InStep(t, w, b, origin)
    requires IsWindow(lines, w', b) && StaysLive(lines) && w.first <= w'.first && w'.Has(Current(t))
    ensures var r := Apply(Apply(t, ProfileChanged), Refreshed(lines, w'));
            && InStep(r, w', b, origin) && NextOut(r) == NextOut(t) && r.fragmentURI != -1 && r.playlist == lines
            && forall o :: o in Emits(r, Turn(initFetched, outcome)) ==> o.number == NextOut(t) && Named(lines, w', o)
  {
    hide OnAir, Emits, IsWindow, Refresh;
    var p := Apply(t, ProfileChanged);
    assert InStep(p, w, b, origin) && NextOut(p) == NextOut(t);
    LiveRefresh(p, w, b, origin, lines, w');
    LiveTurn(Apply(p, Refreshed(lines, w')), w', b, origin, initFetched, outcome);
  }

  // ----- Runs -------------------------------------------------------------------------------

  /** Every refreshed playlist is a later window that still lists the current segment. */
  ghost predicate Keeps(t: Track, w: Window, b: Broadcast, steps: seq<Step>)
    decreases |steps|
  {
    steps == [] ||
    (match steps[0]
     case Refreshed(lines, w') =>
       IsWindow(lines, w', b) && StaysLive(lines) && w.first <= w'.first && w'.Has(Current(t)) &&
       Keeps(Apply(t, steps[0]), w', b, steps[1..])
     case _ => Keeps(Apply(t, steps[0]), w, b, steps[1..]))
  }

  lemma {:induction false} TimelineHolds(t: Track, w: Window, b: Broadcast, origin: int, n: int)
    requires InStep(t, w, b, origin) && w.Has(n)
    ensures t.culledSeconds + CompletionTime(t, n) == Span(b, origin, n + 1)
  {
    SpanSplit(b, origin, w.first, n + 1);
    CompletionInWindow(t, w, b, n);
  }

  lemma {:induction false} LiveStep(t: Track, w: Window, b: Broadcast, origin: int, steps: seq<Step>)
    requires InStep(t, w, b, origin) && steps != [] && Keeps(t, w, b, steps)
    ensures var t' := Apply(t, steps[0]); var w' := NextWindow(w, steps[0]);
            InStep(t', w', b, origin) && Follows(t, t', w, Emits(t, steps[0])) && Keeps(t', w', b, steps[1..])
  {
    match steps[0] {
      case Turn(initFetched, outcome) => LiveTurn(t, w, b, origin, initFetched, outcome);
      case Refreshed(lines, w') => LiveRefresh(t, w, b, origin, lines, w');
      case _ =>
    }
  }

  /** out is the segments numbered n, n+1, ... */
  ghost predicate Consecutive(out: seq<Out>, n: int) {
    forall i :: 0 <= i < |out| ==> out[i].number == n + i
  }

  lemma {:induction false} ConsecutiveAppend(out: seq<Out>, rest: seq<Out>, n: int)
    requires Consecutive(out, n) && Consecutive(rest, n + |out|)
    ensures Consecutive(out + rest, n)
  {
  }

  lemma {:induction false} RunKeepsStep(t: Track, w: Window, b: Broadcast, origin: int, steps: seq<Step>)
    requires InStep(t, w, b, origin) && Keeps(t, w, b, steps)
    ensures InStep(After(t, steps), FinalWindow(w, steps), b, origin)
    ensures NextOut(After(t, steps)) == NextOut(t) + |Emitted(t, steps)|
    ensures Consecutive(Emitted(t, steps), NextOut(t)) && AllNamed(t, w, steps)
    decreases |steps|
  {
    hide Apply, Emits, OnAir, AtSegment;
    if steps != [] {
      LiveStep(t, w, b, origin, steps);
      var t1 := Apply(t, steps[0]);
      RunKeepsStep(t1, NextWindow(w, steps[0]), b, origin, steps[1..]);
      ConsecutiveAppend(Emits(t, steps[0]), Emitted(t1, steps[1..]), NextOut(t));
    }
  }

  /** Live continuity: the segments handed out are consecutive, none lost and none repeated, each under the
      URI that the playlist held lists for it, whatever downloads fail, whatever initialization sections
      interrupt, and whichever profiles the playlists come from; and at the end
      the culled time is the duration of everything that left the window, so every segment
      still listed keeps its place on the session's timeline. */
  lemma {:induction false} LiveContinuity(t: Track, w: Window, b: Broadcast, origin: int, steps: seq<Step>)
    requires InStep(t, w, b, origin) && Keeps(t, w, b, steps)
    ensures var out := Emitted(t, steps); forall i :: 0 <= i < |out| ==> out[i].number == NextOut(t) + i
    ensures AllNamed(t, w, steps)
    ensures NextOut(After(t, steps)) == NextOut(t) + |Emitted(t, steps)|
    ensures var t' := After(t, steps); var w' := FinalWindow(w, steps);
            && t'.culledSeconds == Span(b, origin, w'.first)
            && forall n :: w'.Has(n) ==> t'.culledSeconds + CompletionTime(t', n) == Span(b, origin, n + 1)
  {
    RunKeepsStep(t, w, b, origin, steps);
    var t' := After(t, steps);
    var w' := FinalWindow(w, steps);
    forall n | w'.Has(n) ensures t'.culledSeconds + CompletionTime(t', n) == Span(b, origin, n + 1) {
      TimelineHolds(t', w', b, origin, n);
    }
  }

  /** Progress: with working downloads, two turns hand out at least one segment as long as the
      window has one to hand out. */
  lemma {:induction false} TwoTurnsEmit(t: Track, w: Window, b: Broadcast, origin: int)
    requires InStep(t, w, b, origin) && t.fragmentURI != -1 && NextOut(t) <= w.Last()
    ensures |Emitted(t, [Turn(true, Fetched), Turn(true, Fetched)])| >= 1
  {
    var s := Turn(true, Fetched);
    var t1 := Apply(t, s);
    assert Emitted(t, [s, s]) == Emits(t, s) + Emits(t1, s) by {
      hide Apply, Emits;
      assert [s, s][1..] == [s];
      assert Emitted(t1, [s]) == Emits(t1, s) + Emitted(Apply(t1, s), []);
    }
    FirstTurn(t, w, b, origin);
    if Emits(t, s) == [] {
      hide *;
      PendingTurn(t1, w, b, origin);
    }
  }

  /** A pending segment goes out on the next turn. */
  lemma {:induction false} PendingTurn(t: Track, w: Window, b: Broadcast, origin: int)
    requires InStep(t, w, b, origin) && t.fragmentURI != -1 && Pending(t)
    ensures |Emits(t, Turn(true, Fetched))| == 1
  {
    PointsInside(t, w, b, origin);
    NextPending(ServeInit(t, true));
    hide NextFragment, OnAir;
  }

  /** A turn with working downloads hands a segment out unless an initialization section has just
      been found; then the segment is pending. */
  lemma {:induction false} FirstTurn(t: Track, w: Window, b: Broadcast, origin: int)
    requires InStep(t, w, b, origin) && t.fragmentURI != -1 && NextOut(t) <= w.Last()
    ensures var t1 := Apply(t, Turn(true, Fetched));
            Emits(t, Turn(true, Fetched)) == [] ==>
              InStep(t1, w, b, origin) && t1.fragmentURI != -1 && Pending(t1) && NextOut(t1) == NextOut(t)
  {
    PointsInside(t, w, b, origin);
    hide NextFragment, OnAir;
    var v := ServeInit(t, true);
    SelectInStep(v, w, b, origin);
    PointsInside(SelectFragment(v), w, b, origin);
  }
}
