/** A media playlist as the track engine reads it: one value per line, and the description of
    a playlist as a window on one endless broadcast (RFC 8216, sections 4.3.2.1, 4.3.3.2 and 6.2.2). */
module Playlist {

  import opened Common

  /** The lines the engine tells apart.  Tag stands for every other tag or comment. */
  datatype Line =
    | M3U
    | Inf(duration: real)
    | MediaSequence(number: int)
    | PlaylistType(vod: bool)
    | Map(init: string)
    | Discontinuity
    | EndList
    | Tag
    | Blank
    | Uri(uri: string)

  /** Lines that do not advance the clock or the segment count. */
  predicate Plain(l: Line) {
    !l.Inf? && !l.Uri? && !l.MediaSequence?
  }

  predicate AllPlain(lines: seq<Line>, lo: int, hi: int) {
    0 <= lo <= hi <= |lines| && forall i :: lo <= i < hi ==> Plain(lines[i])
  }

  /** No line ends the stream or declares it on-demand. */
  predicate StaysLive(lines: seq<Line>) {
    forall i :: 0 <= i < |lines| ==> lines[i] != EndList && lines[i] != PlaylistType(true)
  }

  /** The section in force at line k, when held is the one in force at line i: that of the last EXT-X-MAP
      between them. */
  function SectionAt(lines: seq<Line>, i: nat, k: nat, held: Option<string>): Option<string>
    requires k <= |lines|
  {
    if k <= i then held
    else if lines[k - 1].Map? then Some(lines[k - 1].init) else SectionAt(lines, i, k - 1, held)
  }

  lemma {:induction false} SectionSplit(lines: seq<Line>, i: nat, j: nat, k: nat, held: Option<string>)
    requires i <= j <= k <= |lines|
    ensures SectionAt(lines, i, k, held) == SectionAt(lines, j, k, SectionAt(lines, i, j, held))
    decreases k
  {
    if j < k {
      SectionSplit(lines, i, j, k - 1, held);
    }
  }

  /** The durations of an endless sequence of media segments, numbered as the server numbers them. Every
      profile has the same ones, under URIs of its own. */
  datatype Broadcast = Broadcast(duration: int -> real)

  ghost predicate Positive(b: Broadcast) {
    forall n :: b.duration(n) > 0.0
  }

  /** Total duration of the segments lo, lo+1, ..., hi-1. */
  ghost function Span(b: Broadcast, lo: int, hi: int): real
    decreases hi - lo
  {
    if hi <= lo then 0.0 else Span(b, lo, hi - 1) + b.duration(hi - 1)
  }

  lemma {:induction false} SpanSplit(b: Broadcast, lo: int, mid: int, hi: int)
    requires lo <= mid <= hi
    ensures Span(b, lo, hi) == Span(b, lo, mid) + Span(b, mid, hi)
    decreases hi - mid
  {
    if mid < hi {
      SpanSplit(b, lo, mid, hi - 1);
    }
  }

  lemma {:induction false} SpanPositive(b: Broadcast, lo: int, hi: int)
    requires Positive(b)
    ensures Span(b, lo, hi) >= 0.0
    ensures lo < hi ==> Span(b, lo, hi) > 0.0
    decreases hi - lo
  {
    if lo < hi {
      SpanPositive(b, lo, hi - 1);
    }
  }

  /** Where segments first, first+1, ... sit in a playlist: the line of the sequence tag, and for
      each segment the line of its EXTINF and the line of its URI. */
  datatype Window = Window(first: int, sequenceAt: nat, infAt: seq<nat>, uriAt: seq<nat>) {
    function Count(): nat { |uriAt| }

    function Last(): int { first + |uriAt| - 1 }

    predicate Has(n: int) { first <= n <= Last() }

    /** The line where the scan for segment j of the window starts. */
    function Entry(j: nat): nat
      requires j <= |uriAt|
    {
      if j == 0 then sequenceAt + 1 else uriAt[j - 1] + 1
    }
  }

  /** lines is a well-formed playlist advertising the segments of b that w lists. */
  ghost predicate IsWindow(lines: seq<Line>, w: Window, b: Broadcast) {
    && |w.infAt| == |w.uriAt| > 0
    && w.sequenceAt < |lines| && lines[0] == M3U && lines[w.sequenceAt] == MediaSequence(w.first)
    && AllPlain(lines, 0, w.sequenceAt)
    && (forall j :: 0 <= j <= w.Count() ==> w.Entry(j) <= |lines|)
    && (forall j :: 0 <= j < w.Count() ==> IsSegment(lines, w, b, j))
    && AllPlain(lines, w.Entry(w.Count()), |lines|)
  }

  ghost predicate IsSegment(lines: seq<Line>, w: Window, b: Broadcast, j: nat)
    requires |w.infAt| == |w.uriAt| && j < w.Count()
  {
    && w.Entry(j) <= w.infAt[j] < w.uriAt[j] < |lines|
    && AllPlain(lines, w.Entry(j), w.infAt[j])
    && lines[w.infAt[j]] == Inf(b.duration(w.first + j))
    && AllPlain(lines, w.infAt[j] + 1, w.uriAt[j])
    && lines[w.uriAt[j]].Uri?
  }
}
