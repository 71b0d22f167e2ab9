/** Synchronizing audio, video and subtitle by media sequence number (SyncTracks). */
module TrackSync {
  import opened Common
  import opened Playlist
  import opened TrackModel
  import opened WindowScan
  import opened LiveRun
  import opened LiveGaps

  const MAX_SEQ_NUMBER_LAG_COUNT: int := 50
  const MAX_SEQ_NUMBER_DIFF_FOR_SEQ_NUM_BASED_SYNC: int := 2

  /** The track is walked to its seek position and the target corrected to that segment's start. */
  function Align(t: Track): (r: Track)
    requires t.WellFormed()
    ensures r.WellFormed()
  {
    var u := NextFragment(t);
    u.(playTarget := u.playlistPosition)
  }

  function Passed(t: Track): Track {
    t.(playTarget := t.playTarget + t.fragmentDuration, playTargetOffset := t.playTargetOffset + t.fragmentDuration)
  }

  /** One segment is passed over, if there is one. */
  function PassSegment(t: Track): (r: Track)
    requires t.WellFormed()
    ensures r.WellFormed()
  {
    if t.fragmentURI != -1 then NextFragment(Passed(t)) else Passed(t)
  }

  /** The catch-up loop: diff segments are passed over. */
  function CatchUp(t: Track, diff: nat): (r: Track)
    requires t.WellFormed()
    ensures r.WellFormed()
    decreases diff
  {
    if diff == 0 then t else CatchUp(PassSegment(t), diff - 1)
  }

  datatype Synced = Synced(audio: Track, video: Track, subtitle: Track, bySequenceNumber: bool)

  /** A lag is made up by sequence number unless it is too long, or start times are known and it
      is more than two segments. */
  predicate Accepted(lag: int, startTimeAvailable: bool) {
    !(startTimeAvailable && lag > MAX_SEQ_NUMBER_DIFF_FOR_SEQ_NUM_BASED_SYNC) && lag <= MAX_SEQ_NUMBER_LAG_COUNT
  }

  function SyncAudioVideo(audio: Track, video: Track, startTimeAvailable: bool): (r: (Track, Track, bool))
    requires audio.WellFormed() && video.WellFormed()
    ensures r.0.WellFormed() && r.1.WellFormed()
  {
    var lag := Current(audio) - Current(video);
    if lag > 0 then
      if Accepted(lag, startTimeAvailable) then (audio, CatchUp(video, lag), true) else (audio, video, false)
    else if lag < 0 then
      if Accepted(-lag, startTimeAvailable) then (CatchUp(audio, -lag), video, true) else (audio, video, false)
    else (audio, video, true)
  }

  /** The subtitle is measured against the number the audio track had before the audio/video
      catch-up. */
  function SyncTracks(audio: Track, video: Track, subtitle: Track, subtitleEnabled: bool,
                      startTimeAvailable: bool, useStartTime: bool): Synced
    requires audio.WellFormed() && video.WellFormed() && subtitle.WellFormed()
  {
    var a, v := Align(audio), Align(video);
    var s := if subtitleEnabled then Align(subtitle) else subtitle;
    if startTimeAvailable && useStartTime then Synced(a, v, s, false)
    else
      var (a', v', synced) := SyncAudioVideo(a, v, startTimeAvailable);
      var diff := Current(a) - Current(s);
      var behind := subtitleEnabled && synced && 0 < diff <= MAX_SEQ_NUMBER_LAG_COUNT;
      Synced(a', v', if behind then CatchUp(s, diff) else s, synced)
  }

  // ----- What a catch-up achieves -----------------------------------------------------------

  /** The track stands at the start of segment n of a window of b. */
  ghost predicate StandsAt(t: Track, w: Window, b: Broadcast, n: int) {
    && Positive(b) && IsWindow(t.playlist, w, b) && w.Has(n) && Current(t) == n
    && t.fragmentURI == w.uriAt[n - w.first] && t.fragmentDuration == b.duration(n)
    && t.playTarget == t.playlistPosition >= 0.0
  }

  lemma {:induction false} StandsInside(t: Track, w: Window, b: Broadcast, n: int)
    requires StandsAt(t, w, b, n)
    ensures t.WellFormed() && t.fragmentDuration > 0.0
  {
    UriAt(t.playlist, w, b, n);
  }

  lemma {:induction false} PassOne(t: Track, w: Window, b: Broadcast, n: int)
    requires StandsAt(t, w, b, n) && n < w.Last() && t.WellFormed()
    ensures var u := PassSegment(t);
            && StandsAt(u, w, b, n + 1) && u.playTargetOffset == t.playTargetOffset + b.duration(n)
            && u.playTarget == t.playTarget + b.duration(n)
  {
    StandsInside(t, w, b, n);
    NextAdvances(Passed(t), w, b);
    hide NextFragment, IsWindow;
  }

  /** With enough segments left, a catch-up by diff lands at the start of the segment diff further
      on, its target moved along, and the offset records exactly the durations passed over. */
  lemma {:induction false} CatchUpLands(t: Track, w: Window, b: Broadcast, n: int, diff: nat)
    requires StandsAt(t, w, b, n) && n + diff <= w.Last() && t.WellFormed()
    ensures var r := CatchUp(t, diff);
            && StandsAt(r, w, b, n + diff)
            && r.playTargetOffset == t.playTargetOffset + Span(b, n, n + diff)
            && r.playTarget == t.playTarget + Span(b, n, n + diff)
    decreases diff
  {
    hide PassSegment, StandsAt;
    if diff > 0 {
      PassOne(t, w, b, n);
      CatchUpLands(PassSegment(t), w, b, n + 1, diff - 1);
      SpanSplit(b, n, n + 1, n + diff);
      assert Span(b, n, n + 1) == Span(b, n, n) + b.duration(n);
    }
  }

  /** Without a segment to present the walk never starts again. */
  lemma {:induction false} CatchUpNowhere(t: Track, diff: nat)
    requires t.WellFormed() && t.fragmentURI == -1
    ensures Current(CatchUp(t, diff)) == Current(t)
    decreases diff
  {
    if diff > 0 {
      CatchUpNowhere(Passed(t), diff - 1);
    }
  }

  /** Behind the last segment nothing is passed over. */
  lemma {:induction false} PassLast(t: Track, w: Window, b: Broadcast, diff: nat)
    requires StandsAt(t, w, b, w.Last()) && t.WellFormed()
    ensures Current(CatchUp(PassSegment(t), diff)) == w.Last()
  {
    StandsInside(t, w, b, w.Last());
    NextRunsDry(Passed(t), w, b);
    hide NextFragment, IsWindow;
    CatchUpNowhere(PassSegment(t), diff);
  }

  /** With too few segments left, a catch-up stops at the last one. */
  lemma {:induction false} CatchUpStops(t: Track, w: Window, b: Broadcast, n: int, diff: nat)
    requires StandsAt(t, w, b, n) && n + diff > w.Last() && t.WellFormed()
    ensures Current(CatchUp(t, diff)) == w.Last()
    decreases diff
  {
    hide PassSegment, StandsAt;
    StandsInWindow(t, w, b, n);
    if n < w.Last() {
      PassOne(t, w, b, n);
      CatchUpStops(PassSegment(t), w, b, n + 1, diff - 1);
    } else {
      PassLast(t, w, b, diff - 1);
    }
  }

  lemma {:induction false} StandsInWindow(t: Track, w: Window, b: Broadcast, n: int)
    requires StandsAt(t, w, b, n)
    ensures w.Has(n)
  {
  }

  /** A catch-up reaches the segment lag further on if and only if the window lists it. */
  lemma {:induction false} CatchUpMeets(t: Track, w: Window, b: Broadcast, lag: nat)
    requires StandsAt(t, w, b, Current(t)) && t.WellFormed()
    ensures var r, lead := CatchUp(t, lag), Current(t) + lag;
            && (Current(r) == lead <==> w.Last() >= lead) && w.Last() >= Current(t)
            && (w.Last() >= lead ==>
                  r.playTarget == r.playlistPosition &&
                    r.playTargetOffset == t.playTargetOffset + Span(b, Current(t), lead))
  {
    if Current(t) + lag <= w.Last() {
      CatchUpLands(t, w, b, Current(t), lag);
    } else {
      CatchUpStops(t, w, b, Current(t), lag);
    }
    hide CatchUp;
  }

  /** Sequence-number sync of audio and video: once a lag is accepted, both tracks stand on the
      same media sequence number if and only if the lagging playlist lists the leading number;
      then the lagging track's target is the start of that segment and its offset grew by exactly
      what it passed over, and the leading track is untouched. */
  lemma {:induction false} SyncMeets(audio: Track, wa: Window, ba: Broadcast, video: Track, wv: Window, bv: Broadcast,
                                     startTimeAvailable: bool)
    requires StandsAt(audio, wa, ba, Current(audio)) && StandsAt(video, wv, bv, Current(video))
    requires audio.WellFormed() && video.WellFormed()
    requires Accepted(Abs(Current(audio) - Current(video)), startTimeAvailable)
    ensures var (a, v, synced) := SyncAudioVideo(audio, video, startTimeAvailable);
            var lead := Max(Current(audio), Current(video));
            && synced
            && (Current(a) == Current(v) <==> wa.Last() >= lead && wv.Last() >= lead)
            && (Current(a) == Current(v) ==>
                  && Current(a) == lead && a.playTarget == a.playlistPosition && v.playTarget == v.playlistPosition
                  && a.playTargetOffset == audio.playTargetOffset + Span(ba, Current(audio), lead)
                  && v.playTargetOffset == video.playTargetOffset + Span(bv, Current(video), lead))
  {
    hide CatchUp, StandsAt, Span;
    var na, nv := Current(audio), Current(video);
    CatchUpMeets(video, wv, bv, if na > nv then na - nv else 0);
    CatchUpMeets(audio, wa, ba, if nv > na then nv - na else 0);
    CatchUpNothing(video);
    CatchUpNothing(audio);
  }

  function Abs(x: int): int { if x < 0 then -x else x }

  /** Three tracks stand on segments, the lag of audio and video is accepted, and both windows reach the
      leading number. */
  ghost predicate InReach(a: Track, v: Track, s: Track, wa: Window, ba: Broadcast, wv: Window, bv: Broadcast,
                          ws: Window, bs: Broadcast, startTimeAvailable: bool) {
    var lead := Max(Current(a), Current(v));
    && StandsAt(a, wa, ba, Current(a)) && StandsAt(v, wv, bv, Current(v)) && StandsAt(s, ws, bs, Current(s))
    && wa.Last() >= lead && wv.Last() >= lead && Accepted(Abs(Current(a) - Current(v)), startTimeAvailable)
  }

  /** Where the subtitle goes: it catches up with the old audio number, as far as its window allows, if
      that is ahead by at most 50, and stays where it is otherwise. */
  lemma {:induction false} SubtitleGoes(s: Track, ws: Window, bs: Broadcast, diff: int)
    requires s.WellFormed() && StandsAt(s, ws, bs, Current(s))
    ensures var r := if 0 < diff <= MAX_SEQ_NUMBER_LAG_COUNT then CatchUp(s, diff) else s;
            && (0 <= diff <= MAX_SEQ_NUMBER_LAG_COUNT ==>
                Current(r) == if ws.Last() >= Current(s) + diff then Current(s) + diff else ws.Last())
            && (diff < 0 || diff > MAX_SEQ_NUMBER_LAG_COUNT ==> Current(r) == Current(s))
            && Current(s) <= ws.Last()
  {
    hide CatchUp;
    if 0 <= diff {
      if Current(s) + diff <= ws.Last() {
        CatchUpLands(s, ws, bs, Current(s), diff);
        StandsOnNumber(CatchUp(s, diff), ws, bs, Current(s) + diff);
      } else {
        CatchUpStops(s, ws, bs, Current(s), diff);
      }
    }
  }

  /** The subtitle is measured against the number the audio track had before it was moved.  So it ends on
      the number audio and video play if and only if either audio is not the lagging track, the subtitle is
      at most 50 segments behind it and its playlist reaches that far, or audio is the lagging track and
      the subtitle was on the video's number already. */
  lemma {:induction false} SubtitleMeets(audio: Track, video: Track, subtitle: Track, wa: Window, ba: Broadcast,
                                         wv: Window, bv: Broadcast, ws: Window, bs: Broadcast, startTimeAvailable: bool)
    requires audio.WellFormed() && video.WellFormed() && subtitle.WellFormed()
    requires InReach(Align(audio), Align(video), Align(subtitle), wa, ba, wv, bv, ws, bs, startTimeAvailable)
    ensures var r := SyncTracks(audio, video, subtitle, true, startTimeAvailable, false);
            var a, v, s := Current(Align(audio)), Current(Align(video)), Current(Align(subtitle));
            && Current(r.audio) == Current(r.video)
            && (Current(r.subtitle) == Current(r.audio) <==>
                  (a >= v && 0 <= a - s <= 50 && ws.Last() >= a) || (a < v && s == v))
  {
    hide Align, CatchUp, SyncAudioVideo, StandsAt, Span;
    SyncMeets(Align(audio), wa, ba, Align(video), wv, bv, startTimeAvailable);
    SubtitleGoes(Align(subtitle), ws, bs, Current(Align(audio)) - Current(Align(subtitle)));
  }

  /** When the tracks are synchronized by sequence number, from wherever they were walked to: unless start times
      are to be used, if the lag is at most 50, and at most 2 where start times are known. The leading track is
      not moved; if they are not synchronized none is, and a subtitle that is off is left alone. */
  lemma {:induction false} SyncedByNumber(audio: Track, video: Track, subtitle: Track, subtitleEnabled: bool,
                                          startTimeAvailable: bool, useStartTime: bool)
    requires audio.WellFormed() && video.WellFormed() && subtitle.WellFormed()
    ensures var r := SyncTracks(audio, video, subtitle, subtitleEnabled, startTimeAvailable, useStartTime);
            var a, v := Align(audio), Align(video);
            var lag := if Current(a) >= Current(v) then Current(a) - Current(v) else Current(v) - Current(a);
            && (r.bySequenceNumber <==>
                  !(startTimeAvailable && useStartTime) && lag <= 50 && (startTimeAvailable ==> lag <= 2))
            && (Current(a) >= Current(v) || !r.bySequenceNumber ==> r.audio == a)
            && (Current(v) >= Current(a) || !r.bySequenceNumber ==> r.video == v)
            && (!subtitleEnabled ==> r.subtitle == subtitle)
            && (subtitleEnabled && !r.bySequenceNumber ==> r.subtitle == Align(subtitle))
  {
    hide Align, CatchUp;
  }

  lemma {:induction false} CatchUpNothing(t: Track)
    requires t.WellFormed()
    ensures CatchUp(t, 0) == t
  {
  }

  lemma {:induction false} StandsOnNumber(t: Track, w: Window, b: Broadcast, n: int)
    requires StandsAt(t, w, b, n)
    ensures Current(t) == n
  {
  }

  /** Before the sync, walking a fresh track to a seek position puts it at the start of the first
      segment that covers the position. */
  lemma {:induction false} AlignStands(t: Track, w: Window, b: Broadcast, n: int)
    requires IsWindow(t.playlist, w, b) && Positive(b) && w.Has(n) && AtStart(t)
    requires Covers(b, w.first, n, t.playTarget)
    requires forall m :: w.first <= m < n ==> !Covers(b, w.first, m, t.playTarget)
    ensures StandsAt(Align(t), w, b, n) && Align(t).playTarget == Span(b, w.first, n)
  {
    WalkFromStart(t, w, b, n);
    SpanPositive(b, w.first, n);
    hide NextFragment;
  }

  /** A track of a live window, indexed and walked to its seek position, is in step with the broadcast: the
      state from which the run theorems start, with the segment that covers the position due. */
  lemma {:induction false} SessionStarts(t: Track, w: Window, b: Broadcast, n: int)
    requires IsWindow(t.playlist, w, b) && StaysLive(t.playlist) && Positive(b) && w.Has(n)
    requires AtStart(t) && t.live && t.culledSeconds == 0.0
    requires Covers(b, w.first, n, t.playTarget)
    requires forall m :: w.first <= m < n ==> !Covers(b, w.first, m, t.playTarget)
    ensures var r := Align(IndexPlaylist(t, false));
            InStep(r, w, b, w.first) && NextOut(r) == n && Current(r) == n && Playing(r.playlist, w, b) &&
              Loose(r, w, b, n - 1)
  {
    IndexWindow(t, w, b);
    HasSegments(t.playlist, w, b);
    var u := IndexPlaylist(t, false);
    hide IndexPlaylist, Indexed, IsWindow;
    WalkFromStart(u, w, b, n);
    AlignStands(u, w, b, n);
  }
}
