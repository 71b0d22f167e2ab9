/** Choosing the stream profiles of a main manifest (ParseMainManifest): one pass keeps the best
    audio codec, clears the tables in mid-stream and starts over when I-frame entries are mixed in. */
module MainManifest {
  import opened Common

  datatype Codec = AAC | AC3 | EC3 | ATMOS

  /** ATMOS > EC3 > AC3 > AAC. */
  function Rank(c: Codec): (r: nat)
    ensures 1 <= r <= 4
  {
    match c
    case AAC => 1
    case AC3 => 2
    case EC3 => 3
    case ATMOS => 4
  }

  /** One row of the stream table; codec is None when the codec string names no known audio format. */
  datatype StreamInfo = StreamInfo(iframe: bool, bandwidth: int, codec: Option<Codec>, uri: string)

  /** What the ABR manager keeps of a row. */
  datatype Profile = Profile(iframe: bool, bandwidth: int)

  function Summary(e: StreamInfo): Profile {
    Profile(e.iframe, e.bandwidth)
  }

  datatype ManifestLine =
    ExtM3U | Stream(info: StreamInfo) | IFrame(info: StreamInfo) | Media | SegmentInf | OtherTag | NoTag

  datatype Status = Ok | ContentError | PlaylistPlayback

  /** Codecs that are switched off. */
  datatype Flags = Flags(aac: bool, ac3: bool, ec3: bool, atmos: bool) {
    predicate Off(rank: int) {
      if rank == 1 then aac else if rank == 2 then ac3 else if rank == 3 then ec3 else rank == 4 && atmos
    }
  }

  /** Profiles counted per codec in this pass. */
  datatype Tally = Tally(aac: nat, ac3: nat, ec3: nat, atmos: nat) {
    function Of(rank: int): nat {
      if rank == 1 then aac else if rank == 2 then ac3 else if rank == 3 then ec3 else if rank == 4 then atmos else 0
    }
  }

  datatype Config = Config(minBitrate: int, maxBitrate: int, disableEC3: bool, disableATMOS: bool) {
    predicate InRange(e: StreamInfo) {
      minBitrate < e.bandwidth < maxBitrate
    }

    /** Switching EC3 off switches AC3 and ATMOS off as well. */
    function Initial(): Flags {
      Flags(false, disableEC3, disableEC3, disableEC3 || disableATMOS)
    }
  }

  // ----- The specification: find the best enabled codec, then filter ------------------------

  /** The rank of a stream entry's codec if it is known and not switched off, else 0. */
  function EnabledRank(l: ManifestLine, off: Flags): nat {
    if l.Stream? && l.info.codec.Some? && !off.Off(Rank(l.info.codec.value)) then Rank(l.info.codec.value) else 0
  }

  /** The best rank among the first n lines. */
  function Best(lines: seq<ManifestLine>, n: nat, off: Flags): (r: nat)
    requires n <= |lines|
    ensures r <= 4 && (r > 0 ==> !off.Off(r))
    ensures forall i :: 0 <= i < n ==> EnabledRank(lines[i], off) <= r
  {
    if n == 0 then 0
    else
      var b := Best(lines, n - 1, off);
      if EnabledRank(lines[n - 1], off) > b then EnabledRank(lines[n - 1], off) else b
  }

  /** The entry of a line is kept: an I-frame entry, one of unknown codec, or one of the given rank. */
  predicate Kept(l: ManifestLine, rank: nat, c: Config) {
    || (l.IFrame? && c.InRange(l.info))
    || (l.Stream? && c.InRange(l.info) && (l.info.codec.None? || Rank(l.info.codec.value) == rank))
  }

  /** The entries kept of lines[from..n], in manifest order. */
  function Filter(lines: seq<ManifestLine>, from: nat, n: nat, rank: nat, c: Config): seq<StreamInfo>
    requires n <= |lines|
  {
    if n <= from then []
    else Filter(lines, from, n - 1, rank, c) + (if Kept(lines[n - 1], rank, c) then [Row(lines[n - 1])] else [])
  }

  /** The table row of an entry. */
  function Row(l: ManifestLine): StreamInfo
    requires l.Stream? || l.IFrame?
  {
    l.info.(iframe := l.IFrame?)
  }

  predicate HasIFrame(lines: seq<ManifestLine>, n: nat, c: Config)
    requires n <= |lines|
  {
    exists i :: 0 <= i < n && IFrameInRange(lines[i], c)
  }

  predicate IFrameInRange(l: ManifestLine, c: Config) {
    l.IFrame? && c.InRange(l.info)
  }

  /** A better codec than all before it turns up after a worse one: the tables are cleared here. */
  predicate ClearsAt(lines: seq<ManifestLine>, i: nat, off: Flags)
    requires i < |lines|
  {
    0 < Best(lines, i, off) < EnabledRank(lines[i], off)
  }

  /** The last line among the first n where the tables are cleared, or 0. */
  function Cut(lines: seq<ManifestLine>, n: nat, off: Flags): (r: nat)
    requires n <= |lines|
    ensures r <= n
  {
    if n == 0 then 0 else if ClearsAt(lines, n - 1, off) then n - 1 else Cut(lines, n - 1, off)
  }

  /** A clear with an I-frame entry before it: the whole parse starts over. */
  predicate StartsOver(lines: seq<ManifestLine>, n: nat, off: Flags, c: Config)
    requires n <= |lines|
  {
    exists i :: 0 <= i < n && ClearsAt(lines, i, off) && HasIFrame(lines, i, c)
  }

  /** The number of leading lines that are read: the parse stops at a segment tag, and at an
      EXTM3U that is not the first tag. */
  function Readable(lines: seq<ManifestLine>, i: nat, lineNum: nat): (r: nat)
    requires i <= |lines|
    ensures i <= r <= |lines|
    decreases |lines| - i
  {
    if i == |lines| || lines[i].SegmentInf? || (lines[i].ExtM3U? && lineNum > 0) then i
    else Readable(lines, i + 1, if lines[i].NoTag? then lineNum else lineNum + 1)
  }

  /** Where the surviving entries start: everything unless the tables were cleared in a parse that
      never had to start over. */
  function CutPoint(lines: seq<ManifestLine>, n: nat, c: Config): (r: nat)
    requires n <= |lines|
    ensures r <= n
  {
    if StartsOver(lines, n, c.Initial(), c) then 0 else Cut(lines, n, c.Initial())
  }

  /** The profiles ParseMainManifest ends with. */
  function Chosen(lines: seq<ManifestLine>, n: nat, c: Config): seq<StreamInfo>
    requires n <= |lines|
  {
    Filter(lines, CutPoint(lines, n, c), n, Best(lines, n, c.Initial()), c)
  }

  /** The tag at line k ends the parse: a segment, or an EXTM3U that is not the first tag. */
  ghost predicate EndsParse(lines: seq<ManifestLine>, k: nat)
    requires k < |lines|
  {
    lines[k].SegmentInf? || (lines[k].ExtM3U? && exists j :: 0 <= j < k && !lines[j].NoTag?)
  }

  lemma {:induction false} ReadableFrom(lines: seq<ManifestLine>, i: nat, lineNum: nat)
    requires i <= |lines| && (lineNum > 0 <==> exists j :: 0 <= j < i && !lines[j].NoTag?)
    ensures var n := Readable(lines, i, lineNum);
            (n < |lines| ==> EndsParse(lines, n)) && forall k :: i <= k < n ==> !EndsParse(lines, k)
    decreases |lines| - i
  {
    if i < |lines| && !lines[i].SegmentInf? && !(lines[i].ExtM3U? && lineNum > 0) {
      ReadableFrom(lines, i + 1, if lines[i].NoTag? then lineNum else lineNum + 1);
    }
  }

  /** The parse reads up to the first tag that ends it, which the status tells: a segment means that the
      manifest is a playlist, and a second EXTM3U that its content is broken. */
  lemma {:induction false} ParseStops(lines: seq<ManifestLine>)
    ensures var n, status := Readable(lines, 0, 0), EndStatus(lines, Readable(lines, 0, 0));
            && (forall k :: 0 <= k < n ==> !EndsParse(lines, k)) && (n < |lines| ==> EndsParse(lines, n))
            && (status == Ok <==> n == |lines|)
            && (status == PlaylistPlayback <==> n < |lines| && lines[n].SegmentInf?)
            && (status == ContentError <==> n < |lines| && lines[n].ExtM3U?)
  {
    ReadableFrom(lines, 0, 0);
  }

  // ----- What the specification means -------------------------------------------------------

  lemma {:induction false} NoIFrameBeforeCut(lines: seq<ManifestLine>, n: nat, off: Flags, c: Config)
    requires n <= |lines| && !StartsOver(lines, n, off, c)
    ensures !HasIFrame(lines, Cut(lines, n, off), c)
    ensures forall i :: 0 <= i < Cut(lines, n, off) ==> EnabledRank(lines[i], off) < Best(lines, n, off)
  {
    if n > 0 && !ClearsAt(lines, n - 1, off) {
      assert !StartsOver(lines, n - 1, off, c);
      NoIFrameBeforeCut(lines, n - 1, off, c);
    }
  }

  /** Dropping a prefix with nothing to keep changes nothing. */
  lemma {:induction false} FilterSkips(lines: seq<ManifestLine>, from: nat, n: nat, rank: nat, c: Config)
    requires from <= n <= |lines| && forall i :: 0 <= i < from ==> !Kept(lines[i], rank, c)
    ensures Filter(lines, from, n, rank, c) == Filter(lines, 0, n, rank, c)
  {
    if n > from {
      FilterSkips(lines, from, n - 1, rank, c);
    } else if n > 0 {
      FilterSkips(lines, from - 1, n - 1, rank, c);
    }
  }

  lemma {:induction false} FilterLength(lines: seq<ManifestLine>, from: nat, n: nat, rank: nat, c: Config)
    requires n <= |lines|
    ensures |Filter(lines, from, n, rank, c)| <= |Filter(lines, 0, n, rank, c)|
    ensures (exists i :: 0 <= i < from && i < n && Kept(lines[i], rank, c)) ==>
              |Filter(lines, from, n, rank, c)| < |Filter(lines, 0, n, rank, c)|
  {
    if n > 0 {
      FilterLength(lines, from, n - 1, rank, c);
    }
  }

  /** The entry of a line passes the two-line specification: I-frames, unknown codecs and the best
      enabled codec, all within the bitrate range. */
  predicate Wanted(lines: seq<ManifestLine>, i: nat, n: nat, c: Config)
    requires i < n <= |lines|
  {
    Kept(lines[i], Best(lines, n, c.Initial()), c)
  }

  /** Codec selection refines filtering exactly when no entry of unknown codec within range stands
      before the cut point. */
  lemma {:induction false} ChosenIsFilterIff(lines: seq<ManifestLine>, n: nat, c: Config)
    requires n <= |lines|
    ensures Chosen(lines, n, c) == Filter(lines, 0, n, Best(lines, n, c.Initial()), c) <==>
            forall i :: 0 <= i < CutPoint(lines, n, c) && lines[i].Stream? && c.InRange(lines[i].info) ==>
                        lines[i].info.codec.Some?
  {
    var off, b, cut := c.Initial(), Best(lines, n, c.Initial()), CutPoint(lines, n, c);
    if cut > 0 {
      NoIFrameBeforeCut(lines, n, off, c);
    }
    if forall i :: 0 <= i < cut && lines[i].Stream? && c.InRange(lines[i].info) ==> lines[i].info.codec.Some? {
      forall i | 0 <= i < cut ensures !Kept(lines[i], b, c) {
        assert !IFrameInRange(lines[i], c);
        assert EnabledRank(lines[i], off) < b;
      }
      FilterSkips(lines, cut, n, b, c);
    } else {
      var i :| 0 <= i < cut && lines[i].Stream? && c.InRange(lines[i].info) && lines[i].info.codec.None?;
      assert Kept(lines[i], b, c);
      FilterLength(lines, cut, n, b, c);
    }
  }

  const WIDE := Config(0, 1000000, false, false)

  /** An entry of unknown codec, one of AAC and one of AC3. */
  const MIXED := [Stream(StreamInfo(false, 100, None, "u")), Stream(StreamInfo(false, 200, Some(AAC), "a")),
                  Stream(StreamInfo(false, 300, Some(AC3), "b"))]

  /** The entry of unknown codec is in range but lost when the third one clears the tables. */
  lemma {:induction false} UnknownCodecIsLost()
    ensures Chosen(MIXED, 3, WIDE) == [MIXED[2].info] && Kept(MIXED[0], Best(MIXED, 3, WIDE.Initial()), WIDE)
    ensures Chosen(MIXED, 3, WIDE) != Filter(MIXED, 0, 3, Best(MIXED, 3, WIDE.Initial()), WIDE)
  {
    var off := WIDE.Initial();
    assert EnabledRank(MIXED[0], off) == 0 && EnabledRank(MIXED[1], off) == 1 && EnabledRank(MIXED[2], off) == 2;
    assert Best(MIXED, 1, off) == 0 && Best(MIXED, 2, off) == 1 && Best(MIXED, 3, off) == 2;
    assert ClearsAt(MIXED, 2, off) && Cut(MIXED, 3, off) == 2;
    assert !StartsOver(MIXED, 3, off, WIDE);
    assert CutPoint(MIXED, 3, WIDE) == 2 && Filter(MIXED, 2, 2, 2, WIDE) == [];
    ChosenIsFilterIff(MIXED, 3, WIDE);
    assert MIXED[0].Stream? && WIDE.InRange(MIXED[0].info) && MIXED[0].info.codec.None?;
  }

  /** Every stream entry names a known audio codec. */
  predicate AllKnown(lines: seq<ManifestLine>) {
    forall i :: 0 <= i < |lines| && lines[i].Stream? ==> lines[i].info.codec.Some?
  }

  /** With known codecs only, the two-line specification is met however entries are interleaved. */
  lemma {:induction false} KnownCodecsFilter(lines: seq<ManifestLine>, n: nat, c: Config)
    requires n <= |lines| && AllKnown(lines)
    ensures Chosen(lines, n, c) == Filter(lines, 0, n, Best(lines, n, c.Initial()), c)
  {
    ChosenIsFilterIff(lines, n, c);
  }

  // ----- What the settings exclude ----------------------------------------------------------

  /** The settings let a codec through: switching EC3 off leaves AAC only. */
  predicate Allowed(codec: Codec, c: Config) {
    !(c.disableEC3 && codec in {AC3, EC3, ATMOS}) && !(c.disableATMOS && codec == ATMOS)
  }

  /** Line i is a stream entry whose codec is known and let through. */
  predicate Offers(lines: seq<ManifestLine>, i: nat, c: Config)
    requires i < |lines|
  {
    lines[i].Stream? && lines[i].info.codec.Some? && Allowed(lines[i].info.codec.value, c)
  }

  /** No entry among the first n offers a better codec. */
  predicate Beats(codec: Codec, lines: seq<ManifestLine>, n: nat, c: Config)
    requires n <= |lines|
  {
    forall i :: 0 <= i < n && Offers(lines, i, c) ==> Rank(lines[i].info.codec.value) <= Rank(codec)
  }

  lemma {:induction false} InitialAllows(codec: Codec, c: Config)
    ensures c.Initial().Off(Rank(codec)) <==> !Allowed(codec, c)
  {
  }

  lemma {:induction false} BestOffered(lines: seq<ManifestLine>, n: nat, c: Config)
    requires n <= |lines|
    ensures var best := Best(lines, n, c.Initial());
            && (forall i :: 0 <= i < n && Offers(lines, i, c) ==> Rank(lines[i].info.codec.value) <= best)
            && (best > 0 ==> exists i :: 0 <= i < n && Offers(lines, i, c) && Rank(lines[i].info.codec.value) == best)
  {
    if n > 0 {
      BestOffered(lines, n - 1, c);
      if lines[n - 1].Stream? && lines[n - 1].info.codec.Some? {
        InitialAllows(lines[n - 1].info.codec.value, c);
      }
    }
  }

  /** A row of the result: within the bitrates, and if it is a stream of known codec, of one that is let
      through and not beaten. */
  predicate Obeys(row: StreamInfo, lines: seq<ManifestLine>, n: nat, c: Config)
    requires n <= |lines|
  {
    && c.minBitrate < row.bandwidth < c.maxBitrate
    && (!row.iframe && row.codec.Some? ==> Allowed(row.codec.value, c) && Beats(row.codec.value, lines, n, c))
  }

  lemma {:induction false} KeptObeys(lines: seq<ManifestLine>, i: nat, n: nat, c: Config)
    requires i < n <= |lines| && Kept(lines[i], Best(lines, n, c.Initial()), c)
    ensures Obeys(Row(lines[i]), lines, n, c)
  {
    BestOffered(lines, n, c);
    if lines[i].Stream? && lines[i].info.codec.Some? {
      InitialAllows(lines[i].info.codec.value, c);
    }
  }

  lemma {:induction false} FilterRows(lines: seq<ManifestLine>, from: nat, n: nat, rank: nat, c: Config)
    requires n <= |lines|
    ensures forall row :: row in Filter(lines, from, n, rank, c) <==>
                          exists i :: from <= i < n && Kept(lines[i], rank, c) && row == Row(lines[i])
  {
    if from < n {
      FilterRows(lines, from, n - 1, rank, c);
    }
  }

  /** An entry that has its row in the result: an I-frame entry, or one of the best codec offered, within the
      bitrates. */
  predicate MustStay(lines: seq<ManifestLine>, i: nat, n: nat, c: Config)
    requires i < n <= |lines|
  {
    && (lines[i].IFrame? || (Offers(lines, i, c) && Beats(lines[i].info.codec.value, lines, n, c)))
    && c.minBitrate < lines[i].info.bandwidth < c.maxBitrate
  }

  /** What the tables hold in the end: rows that the settings let through, of the best codec let through; all
      entries of that codec within the bitrates; and all I-frame entries within them. */
  lemma {:induction false} ChosenObeys(lines: seq<ManifestLine>, n: nat, c: Config)
    requires n <= |lines|
    ensures forall row :: row in Chosen(lines, n, c) ==> Obeys(row, lines, n, c)
    ensures forall i :: 0 <= i < n && MustStay(lines, i, n, c) ==> Row(lines[i]) in Chosen(lines, n, c)
  {
    hide Best, Filter, Obeys, Row;
    var rank, cut := Best(lines, n, c.Initial()), CutPoint(lines, n, c);
    FilterRows(lines, cut, n, rank, c);
    forall row | row in Chosen(lines, n, c) ensures Obeys(row, lines, n, c) {
      var i :| cut <= i < n && Kept(lines[i], rank, c) && row == Row(lines[i]);
      KeptObeys(lines, i, n, c);
    }
    forall i | 0 <= i < n && MustStay(lines, i, n, c) ensures Row(lines[i]) in Chosen(lines, n, c) {
      StaysBehindCut(lines, i, n, c);
    }
  }

  lemma {:induction false} StaysBehindCut(lines: seq<ManifestLine>, i: nat, n: nat, c: Config)
    requires i < n <= |lines| && MustStay(lines, i, n, c)
    ensures CutPoint(lines, n, c) <= i && Kept(lines[i], Best(lines, n, c.Initial()), c)
  {
    hide Best, Cut, ClearsAt;
    BestOffered(lines, n, c);
    if lines[i].Stream? {
      InitialAllows(lines[i].info.codec.value, c);
    }
    if !StartsOver(lines, n, c.Initial(), c) {
      NoIFrameBeforeCut(lines, n, c.Initial(), c);
      assert IFrameInRange(lines[i], c) || EnabledRank(lines[i], c.Initial()) == Best(lines, n, c.Initial());
    }
  }

  /** Line i offers a better codec than every one before it, and there is one. */
  ghost predicate Surpasses(lines: seq<ManifestLine>, i: nat, c: Config)
    requires i < |lines|
  {
    && Offers(lines, i, c) && (exists j :: 0 <= j < i && Offers(lines, j, c))
    && forall j :: 0 <= j < i && Offers(lines, j, c) ==>
                     Rank(lines[j].info.codec.value) < Rank(lines[i].info.codec.value)
  }

  /** An I-frame entry within the bitrates stands before a line among the first n that surpasses. */
  ghost predicate Mixed(lines: seq<ManifestLine>, n: nat, c: Config)
    requires n <= |lines|
  {
    exists i, j :: 0 <= i < j < n && lines[i].IFrame? && c.minBitrate < lines[i].info.bandwidth < c.maxBitrate &&
                   Surpasses(lines, j, c)
  }

  /** What is kept starts at the last line that surpasses, unless I-frame entries stand before such a line:
      then, and without one, it starts at the first line. */
  lemma {:induction false} CutIs(lines: seq<ManifestLine>, n: nat, c: Config)
    requires n <= |lines|
    ensures var cut := CutPoint(lines, n, c);
            && (Mixed(lines, n, c) ==> cut == 0)
            && (!Mixed(lines, n, c) ==>
                  && (forall j :: cut < j < n ==> !Surpasses(lines, j, c))
                  && (cut > 0 ==> cut < n && Surpasses(lines, cut, c)))
  {
    hide ClearsAt, Surpasses, Cut;
    forall j | 0 <= j < n ensures ClearsAt(lines, j, c.Initial()) <==> Surpasses(lines, j, c) {
      ClearsIs(lines, j, c);
    }
    CutLast(lines, n, c.Initial());
    if StartsOver(lines, n, c.Initial(), c) {
      var j :| 0 <= j < n && ClearsAt(lines, j, c.Initial()) && HasIFrame(lines, j, c);
      var i :| 0 <= i < j && IFrameInRange(lines[i], c);
      assert Surpasses(lines, j, c);
    }
  }

  lemma {:induction false} ClearsIs(lines: seq<ManifestLine>, i: nat, c: Config)
    requires i < |lines|
    ensures ClearsAt(lines, i, c.Initial()) <==> Surpasses(lines, i, c)
  {
    hide Best;
    BestOffered(lines, i, c);
    if lines[i].Stream? && lines[i].info.codec.Some? {
      InitialAllows(lines[i].info.codec.value, c);
    }
  }

  lemma {:induction false} CutLast(lines: seq<ManifestLine>, n: nat, off: Flags)
    requires n <= |lines|
    ensures var cut := Cut(lines, n, off);
            (forall j :: cut < j < n ==> !ClearsAt(lines, j, off)) && (cut > 0 ==> cut < n && ClearsAt(lines, cut, off))
  {
    hide ClearsAt;
    if n > 0 {
      CutLast(lines, n - 1, off);
    }
  }

  // ----- One stream entry -------------------------------------------------------------------

  datatype Verdict = Verdict(ignore: bool, clear: bool, off: Flags, tally: Tally)

  /** The switch over the audio format of a known codec. */
  function Categorize(codec: Codec, off: Flags, t: Tally): Verdict {
    match codec
    case AAC =>
      if off.aac then Verdict(true, false, off, t) else Verdict(false, false, off, t.(aac := t.aac + 1))
    case AC3 =>
      if off.ac3 then Verdict(true, false, off, t)
      else Verdict(false, t.aac > 0, off.(aac := true), t.(aac := 0, ac3 := t.ac3 + 1))
    case EC3 =>
      if off.ec3 then Verdict(true, false, off, t)
      else Verdict(false, t.aac > 0 || t.ac3 > 0, off.(aac := true, ac3 := true),
                   t.(aac := 0, ac3 := 0, ec3 := t.ec3 + 1))
    case ATMOS =>
      if off.atmos then Verdict(true, false, off, t)
      else Verdict(false, t.aac > 0 || t.ac3 > 0 || t.ec3 > 0, off.(aac := true, ac3 := true, ec3 := true),
                   t.(aac := 0, ac3 := 0, ec3 := 0, atmos := t.atmos + 1))
  }

  /** off and t are what a pass started with flags first holds when best is the best rank so far. */
  predicate Tracks(first: Flags, best: nat, off: Flags, t: Tally) {
    && best <= 4 && (best > 0 ==> !first.Off(best))
    && (forall r :: 1 <= r <= 4 ==> (off.Off(r) <==> first.Off(r) || r < best))
    && (forall r :: 1 <= r <= 4 ==> (t.Of(r) > 0 <==> r == best))
  }

  lemma {:induction false} CategorizeTracks(first: Flags, best: nat, off: Flags, t: Tally, codec: Codec)
    requires Tracks(first, best, off, t)
    ensures var v := Categorize(codec, off, t); var r := Rank(codec);
            && Tracks(first, if !first.Off(r) && r > best then r else best, v.off, v.tally)
            && (v.ignore <==> first.Off(r) || r < best)
            && (v.clear <==> !first.Off(r) && 0 < best < r)
  {
    assert t.Of(1) == t.aac && t.Of(2) == t.ac3 && t.Of(3) == t.ec3 && t.Of(4) == t.atmos;
    assert off.Off(1) == off.aac && off.Off(2) == off.ac3 && off.Off(3) == off.ec3 && off.Off(4) == off.atmos;
    assert first.Off(1) == first.aac && first.Off(2) == first.ac3 && first.Off(3) == first.ec3 &&
             first.Off(4) == first.atmos;
    var v := Categorize(codec, off, t);
    assert v.tally.Of(1) == v.tally.aac && v.tally.Of(2) == v.tally.ac3 && v.tally.Of(3) == v.tally.ec3;
  }

  lemma {:induction false} TracksRaises(first: Flags, best: nat, off: Flags, t: Tally)
    requires Tracks(first, best, off, t)
    ensures Raised(first, best, off)
  {
  }

  // ----- One pass ---------------------------------------------------------------------------

  /** The rows a pass has kept after n lines. */
  function Rows(lines: seq<ManifestLine>, n: nat, off: Flags, c: Config): seq<StreamInfo>
    requires n <= |lines|
  {
    Filter(lines, Cut(lines, n, off), n, Best(lines, n, off), c)
  }

  lemma {:induction false} FilterNoneYet(lines: seq<ManifestLine>, from: nat, n: nat, rank: nat, off: Flags, c: Config)
    requires n <= |lines| && 1 <= rank <= 4 && !off.Off(rank) && Best(lines, n, off) == 0
    ensures Filter(lines, from, n, 0, c) == Filter(lines, from, n, rank, c)
  {
    if n > from {
      FilterNoneYet(lines, from, n - 1, rank, off, c);
      assert EnabledRank(lines[n - 1], off) == 0;
    }
  }

  lemma {:induction false} CutNoneYet(lines: seq<ManifestLine>, n: nat, off: Flags)
    requires n <= |lines| && Best(lines, n, off) == 0
    ensures Cut(lines, n, off) == 0
  {
    if n > 0 {
      CutNoneYet(lines, n - 1, off);
    }
  }

  /** A stream entry of known codec: dropped, kept after everything else, or kept alone. */
  lemma {:induction false} RowsCodec(lines: seq<ManifestLine>, i: nat, off: Flags, c: Config)
    requires i < |lines| && lines[i].Stream? && lines[i].info.codec.Some?
    ensures var r := Rank(lines[i].info.codec.value); var b := Best(lines, i, off);
            Rows(lines, i + 1, off, c) ==
            (if ClearsAt(lines, i, off) then [] else Rows(lines, i, off, c)) +
            (if !(off.Off(r) || r < b) && c.InRange(lines[i].info) then [Row(lines[i])] else [])
  {
    var r, b := Rank(lines[i].info.codec.value), Best(lines, i, off);
    assert Best(lines, i + 1, off) == if !off.Off(r) && r > b then r else b;
    if ClearsAt(lines, i, off) {
      assert Filter(lines, i, i, r, c) == [];
    } else if b == 0 && !off.Off(r) {
      CutNoneYet(lines, i, off);
      FilterNoneYet(lines, 0, i, r, off, c);
    }
  }

  lemma {:induction false} RowsOther(lines: seq<ManifestLine>, i: nat, off: Flags, c: Config)
    requires i < |lines| && !(lines[i].Stream? && lines[i].info.codec.Some?)
    ensures Rows(lines, i + 1, off, c) ==
            Rows(lines, i, off, c) + (if Kept(lines[i], 0, c) then [Row(lines[i])] else [])
    ensures Best(lines, i + 1, off) == Best(lines, i, off) && !ClearsAt(lines, i, off)
  {
  }

  function Videos(rows: seq<StreamInfo>): nat {
    if rows == [] then 0 else Videos(rows[..|rows| - 1]) + if rows[|rows| - 1].iframe then 0 else 1
  }

  lemma {:induction false} VideosAdd(rows: seq<StreamInfo>, row: StreamInfo)
    ensures Videos(rows + [row]) == Videos(rows) + if row.iframe then 0 else 1
  {
    assert (rows + [row])[..|rows|] == rows;
  }

  function Medias(lines: seq<ManifestLine>, n: nat): nat
    requires n <= |lines|
  {
    if n == 0 then 0 else Medias(lines, n - 1) + if lines[n - 1].Media? then 1 else 0
  }

  /** Media entries are counted one by one. */
  lemma {:induction false} MediasCounts(lines: seq<ManifestLine>, n: nat)
    requires n <= |lines|
    ensures Medias(lines, n) == |set i | 0 <= i < n && lines[i].Media?|
  {
    if n > 0 {
      MediasCounts(lines, n - 1);
      var front, all := set i | 0 <= i < n - 1 && lines[i].Media?, set i | 0 <= i < n && lines[i].Media?;
      assert all == if lines[n - 1].Media? then front + {n - 1} else front;
    }
  }

  /** Stream and I-frame entries; the stream table has room for MAX_PROFILE of them. */
  function Entries(lines: seq<ManifestLine>, n: nat): nat
    requires n <= |lines|
  {
    if n == 0 then 0 else Entries(lines, n - 1) + if lines[n - 1].Stream? || lines[n - 1].IFrame? then 1 else 0
  }

  lemma {:induction false} EntriesGrow(lines: seq<ManifestLine>, m: nat, n: nat)
    requires m <= n <= |lines|
    ensures Entries(lines, m) <= Entries(lines, n)
    decreases n - m
  {
    if m < n {
      EntriesGrow(lines, m, n - 1);
    }
  }

  /** The rows one line adds in a pass, and whether it empties the tables first. */
  function Added(l: ManifestLine, best: nat, off: Flags, c: Config): seq<StreamInfo> {
    if l.IFrame? && c.InRange(l.info) then [Row(l)]
    else if l.Stream? && c.InRange(l.info) && l.info.codec.None? then [Row(l)]
    else if l.Stream? && c.InRange(l.info) && !off.Off(Rank(l.info.codec.value)) && best <= Rank(l.info.codec.value)
    then [Row(l)] else []
  }

  lemma {:induction false} RowsStep(lines: seq<ManifestLine>, i: nat, off: Flags, c: Config)
    requires i < |lines|
    ensures Rows(lines, i + 1, off, c) ==
            (if ClearsAt(lines, i, off) then [] else Rows(lines, i, off, c)) +
              Added(lines[i], Best(lines, i, off), off, c)
    ensures !lines[i].Stream? ==> Videos(Rows(lines, i + 1, off, c)) == Videos(Rows(lines, i, off, c))
  {
    if lines[i].Stream? && lines[i].info.codec.Some? {
      RowsCodec(lines, i, off, c);
    } else {
      RowsOther(lines, i, off, c);
      if lines[i].IFrame? {
        VideosAdd(Rows(lines, i, off, c), Row(lines[i]));
      }
    }
    assert Rows(lines, i, off, c) + [] == Rows(lines, i, off, c);
  }

  lemma {:induction false} LineStep(lines: seq<ManifestLine>, i: nat, off: Flags, c: Config)
    requires i < |lines|
    ensures HasIFrame(lines, i + 1, c) <==> HasIFrame(lines, i, c) || IFrameInRange(lines[i], c)
    ensures StartsOver(lines, i + 1, off, c) <==>
              StartsOver(lines, i, off, c) || (ClearsAt(lines, i, off) && HasIFrame(lines, i, c))
    ensures var rank, best := EnabledRank(lines[i], off), Best(lines, i, off);
            Best(lines, i + 1, off) == if rank > best then rank else best
    ensures ClearsAt(lines, i, off) <==> 0 < Best(lines, i, off) < EnabledRank(lines[i], off)
  {
  }

  lemma {:induction false} RowsFit(lines: seq<ManifestLine>, i: nat, off: Flags, c: Config)
    requires i <= |lines|
    ensures |Rows(lines, i, off, c)| <= Entries(lines, i)
  {
    if i > 0 {
      RowsStep(lines, i - 1, off, c);
      RowsFit(lines, i - 1, off, c);
    }
  }

  const MAX_PROFILE: nat := 128

  /** An entry finds a free slot: it is parsed into the one after the rows kept so far. */
  predicate HasSlot(lines: seq<ManifestLine>, i: nat, first: Flags, c: Config)
    requires i < |lines|
  {
    lines[i].Stream? || lines[i].IFrame? ==> |Rows(lines, i, first, c)| < MAX_PROFILE
  }

  lemma {:induction false} SlotFree(lines: seq<ManifestLine>, i: nat, first: Flags, c: Config)
    requires i < |lines| && HasSlot(lines, i, first, c) && (lines[i].Stream? || lines[i].IFrame?)
    ensures |Rows(lines, i, first, c)| < MAX_PROFILE
  {
    hide Rows;
  }

  /** So does every entry that a pass reads before it is forced to start over. */
  predicate PassFits(lines: seq<ManifestLine>, first: Flags, c: Config) {
    forall i :: 0 <= i < Readable(lines, 0, 0) && !StartsOver(lines, i, first, c) ==> HasSlot(lines, i, first, c)
  }

  /** How a pass ends: at a line that ends the parse, or with everything to be read again. */
  datatype PassEnd = Finished(status: Status) | Again | NotCached

  /** The flags after a codec of the given rank was found: everything below it is off. */
  predicate Raised(first: Flags, rank: int, off: Flags) {
    forall r :: 1 <= r <= 4 ==> (off.Off(r) <==> first.Off(r) || r < rank)
  }

  function EndStatus(lines: seq<ManifestLine>, n: nat): Status
    requires n <= |lines|
  {
    if n == |lines| then Ok else if lines[n].SegmentInf? then PlaylistPlayback else ContentError
  }

  // ----- From pass to pass ------------------------------------------------------------------

  /** No entry of rank m or better stands before the first I-frame entry. */
  predicate BelowUntilMixed(lines: seq<ManifestLine>, n: nat, m: nat, off: Flags, c: Config)
    requires n <= |lines|
  {
    forall i :: 0 <= i < n && !HasIFrame(lines, i, c) ==> EnabledRank(lines[i], off) < m
  }

  /** The parse has started over because of a codec of rank m, or not at all yet (m = 0); first is
      what the next pass starts with. */
  predicate PassStart(lines: seq<ManifestLine>, n: nat, m: nat, first: Flags, c: Config)
    requires n <= |lines|
  {
    && m <= 4 && Raised(c.Initial(), m, first)
    && (m > 0 ==>
          && StartsOver(lines, n, c.Initial(), c) && BelowUntilMixed(lines, n, m, c.Initial(), c)
          && exists i :: 0 <= i < n && EnabledRank(lines[i], c.Initial()) == m)
  }

  /** No pass of the parse writes past its table. */
  ghost predicate Fits(lines: seq<ManifestLine>, c: Config) {
    forall m, first :: PassStart(lines, Readable(lines, 0, 0), m, first, c) ==> PassFits(lines, first, c)
  }

  /** A manifest with at most 128 entries fits, whatever is kept of them. */
  lemma {:induction false} FewEntriesFit(lines: seq<ManifestLine>, c: Config)
    requires Entries(lines, |lines|) <= 128
    ensures Fits(lines, c)
  {
    forall first, i | 0 <= i < |lines| ensures HasSlot(lines, i, first, c) {
      RowsFit(lines, i, first, c);
      EntriesGrow(lines, i + 1, |lines|);
    }
  }

  /** Starting over raises the rank: at most three times, as the first rank raised to is 2. */
  lemma {:induction false} StartOverRaises(lines: seq<ManifestLine>, n: nat, m: nat, first: Flags, off: Flags,
                                           at: nat, c: Config)
    requires n <= |lines| && PassStart(lines, n, m, first, c)
    requires at < n && ClearsAt(lines, at, first) && HasIFrame(lines, at, c) &&
               Raised(first, EnabledRank(lines[at], first), off)
    ensures var r := EnabledRank(lines[at], first);
            r > m && r >= 2 && PassStart(lines, n, r, off, c)
  {
    var r := EnabledRank(lines[at], first);
    assert EnabledRank(lines[at], c.Initial()) == r;
    if m == 0 {
      SameFlags(c.Initial(), first);
    }
    forall i | 0 <= i < n && !HasIFrame(lines, i, c) ensures EnabledRank(lines[i], c.Initial()) < r {
      if i < at {
        assert EnabledRank(lines[i], first) <= Best(lines, at, first);
      }
    }
  }

  lemma {:induction false} SameFlags(a: Flags, b: Flags)
    requires Raised(a, 0, b)
    ensures a == b
  {
    assert (a.Off(1) <==> b.Off(1)) && (a.Off(2) <==> b.Off(2)) && (a.Off(3) <==> b.Off(3)) && (a.Off(4) <==> b.Off(4));
  }

  lemma {:induction false} BestRaised(lines: seq<ManifestLine>, n: nat, m: nat, initial: Flags, first: Flags)
    requires n <= |lines| && Raised(initial, m, first)
    ensures Best(lines, n, first) == if Best(lines, n, initial) >= m then Best(lines, n, initial) else 0
  {
    if n > 0 {
      BestRaised(lines, n - 1, m, initial, first);
    }
  }

  lemma {:induction false} BestBelow(lines: seq<ManifestLine>, n: nat, m: nat, off: Flags, c: Config)
    requires n <= |lines| && m > 0 && BelowUntilMixed(lines, n, m, off, c) && !HasIFrame(lines, n, c)
    ensures Best(lines, n, off) < m
  {
    if n > 0 {
      assert !HasIFrame(lines, n - 1, c);
      BestBelow(lines, n - 1, m, off, c);
    }
  }

  lemma {:induction false} BelowBefore(lines: seq<ManifestLine>, n: nat, m: nat, off: Flags, c: Config)
    requires 0 < n <= |lines| && BelowUntilMixed(lines, n, m, off, c)
    ensures BelowUntilMixed(lines, n - 1, m, off, c)
  {
    hide HasIFrame;
  }

  /** Without an I-frame entry before it no line of such a pass clears. */
  lemma {:induction false} NoClear(lines: seq<ManifestLine>, i: nat, m: nat, first: Flags, c: Config)
    requires i < |lines| && m > 0 && Raised(c.Initial(), m, first) && BelowUntilMixed(lines, i, m, c.Initial(), c)
    requires !HasIFrame(lines, i, c)
    ensures !ClearsAt(lines, i, first)
  {
    hide HasIFrame, BelowUntilMixed, Raised;
    BestBelow(lines, i, m, c.Initial(), c);
    BestRaised(lines, i, m, c.Initial(), first);
  }

  /** A pass after a start-over clears nothing. */
  lemma {:induction false} NoCutAfterStartOver(lines: seq<ManifestLine>, n: nat, m: nat, first: Flags, c: Config)
    requires n <= |lines| && m > 0 && Raised(c.Initial(), m, first) && BelowUntilMixed(lines, n, m, c.Initial(), c)
    requires !StartsOver(lines, n, first, c)
    ensures Cut(lines, n, first) == 0
  {
    hide StartsOver, HasIFrame, BelowUntilMixed, Raised, ClearsAt, Best;
    if n > 0 {
      LineStep(lines, n - 1, first, c);
      BelowBefore(lines, n, m, c.Initial(), c);
      if !HasIFrame(lines, n - 1, c) {
        NoClear(lines, n - 1, m, first, c);
      }
      NoCutAfterStartOver(lines, n - 1, m, first, c);
    }
  }

  /** The pass that runs to the end keeps exactly the chosen entries. */
  lemma {:induction false} LastPassChooses(lines: seq<ManifestLine>, n: nat, m: nat, first: Flags, c: Config)
    requires n <= |lines| && PassStart(lines, n, m, first, c) && !StartsOver(lines, n, first, c)
    ensures Rows(lines, n, first, c) == Chosen(lines, n, c)
  {
    if m == 0 {
      SameFlags(c.Initial(), first);
    } else {
      NoCutAfterStartOver(lines, n, m, first, c);
      BestRaised(lines, n, m, c.Initial(), first);
    }
  }

  /** What a pass carries from line to line besides the tables. */
  datatype Progress = Progress(off: Flags, tally: Tally, mixed: bool, videos: nat)

  /** p is right after n lines of a pass that has not been forced to start over. */
  predicate Reached(lines: seq<ManifestLine>, n: nat, first: Flags, c: Config, p: Progress)
    requires n <= |lines|
  {
    && Tracks(first, Best(lines, n, first), p.off, p.tally) && (p.mixed <==> HasIFrame(lines, n, c))
    && !StartsOver(lines, n, first, c) && p.videos == Videos(Rows(lines, n, first, c))
  }

  /** What the switch makes of a stream entry. */
  function VerdictOn(info: StreamInfo, off: Flags, tally: Tally): Verdict {
    if info.codec.Some? then Categorize(info.codec.value, off, tally) else Verdict(false, false, off, tally)
  }

  /** One stream entry of a pass. */
  lemma {:induction false} StreamStep(lines: seq<ManifestLine>, i: nat, first: Flags, c: Config, p: Progress)
    requires i < |lines| && lines[i].Stream? && Tracks(first, Best(lines, i, first), p.off, p.tally)
    ensures var v, info := VerdictOn(lines[i].info, p.off, p.tally), lines[i].info;
            var added := if !v.ignore && c.InRange(info) then [info.(iframe := false)] else [];
            && (v.clear <==> ClearsAt(lines, i, first)) && Tracks(first, Best(lines, i + 1, first), v.off, v.tally)
            && Rows(lines, i + 1, first, c) == (if v.clear then [] else Rows(lines, i, first, c)) + added
            && (v.clear ==> Raised(first, EnabledRank(lines[i], first), v.off))
  {
    hide Rows, Best, Categorize, Tracks, Raised;
    LineStep(lines, i, first, c);
    RowsStep(lines, i, first, c);
    if lines[i].info.codec.Some? {
      CategorizeTracks(first, Best(lines, i, first), p.off, p.tally, lines[i].info.codec.value);
    }
    var v := VerdictOn(lines[i].info, p.off, p.tally);
    if v.clear {
      TracksRaises(first, EnabledRank(lines[i], first), v.off, v.tally);
    }
  }

  class StreamTables {
    const streamInfo: array<StreamInfo>
    var abr: seq<Profile>
    var mediaCount: nat

    constructor ()
      ensures abr == [] && streamInfo.Length == MAX_PROFILE && fresh(streamInfo)
    {
      streamInfo := new StreamInfo[MAX_PROFILE](_ => StreamInfo(false, 0, None, ""));
      abr, mediaCount := [], 0;
    }

    /** The first rows of the stream table are the given ones, and ABR profile i describes row i. */
    predicate Holds(rows: seq<StreamInfo>)
      reads this`abr, streamInfo
    {
      && |abr| == |rows| <= streamInfo.Length && streamInfo[..|rows|] == rows
      && forall i :: 0 <= i < |rows| ==> abr[i] == Summary(rows[i])
    }

    /** Adds the row in the given slot to the ABR table. */
    method AddProfile(slot: nat, ghost rows: seq<StreamInfo>)
      requires Holds(rows) && slot == |rows| < streamInfo.Length
      modifies `abr
      ensures Holds(rows + [streamInfo[slot]])
    {
      abr := abr + [Summary(streamInfo[slot])];
    }

    /** An entry is parsed into the slot after the profiles. */
    method FillSlot(row: StreamInfo, ghost rows: seq<StreamInfo>)
      requires Holds(rows) && |rows| < streamInfo.Length
      modifies streamInfo
      ensures Holds(rows) && streamInfo[|abr|] == row
    {
      streamInfo[|abr|] := row;
    }

    /** The current row moves to slot 0 and the ABR table is emptied. */
    method ClearInPlace(slot: nat) returns (slot': nat)
      requires slot == |abr| < streamInfo.Length
      modifies `abr, streamInfo
      ensures slot' == 0 && Holds([]) && streamInfo[0] == old(streamInfo[slot])
    {
      slot' := slot;
      if |abr| > 0 {
        streamInfo[0] := streamInfo[slot];
        streamInfo[slot] := StreamInfo(false, 0, None, "");
        slot' := 0;
      }
      abr := [];
    }

    method AddIFrame(info: StreamInfo, c: Config, ghost rows: seq<StreamInfo>) returns (added: bool)
      requires Holds(rows) && |rows| < streamInfo.Length
      modifies `abr, streamInfo
      ensures added == c.InRange(info)
      ensures Holds(rows + if added then [info.(iframe := true)] else [])
    {
      FillSlot(info.(iframe := true), rows);
      added := c.InRange(info);
      if added {
        AddProfile(|abr|, rows);
      } else {
        assert rows + [] == rows;
      }
    }

    /** A stream entry; mixed says that I-frame entries were added before it.  end is what the pass
        ends with if the entry forces it to. */
    method AddStream(info: StreamInfo, c: Config, off: Flags, tally: Tally, mixed: bool, cached: bool, videos: nat,
                     ghost rows: seq<StreamInfo>)
      returns (v: Verdict, end: Option<PassEnd>, vProfileCount: nat)
      requires Holds(rows) && |rows| < streamInfo.Length && videos == Videos(rows)
      modifies `abr, streamInfo
      ensures v == VerdictOn(info, off, tally)
      ensures end == if v.clear && mixed then Some(if cached then Again else NotCached) else None
      ensures end.Some? ==> vProfileCount == 0 && (!cached ==> abr == [])
      ensures end.None? ==>
                var added := if !v.ignore && c.InRange(info) then [info.(iframe := false)] else [];
                var kept := (if v.clear then [] else rows) + added;
                Holds(kept) && vProfileCount == Videos(kept)
    {
      var slot := |abr|;
      ghost var kept := rows;
      FillSlot(info.(iframe := false), rows);
      v, end, vProfileCount := Verdict(false, false, off, tally), None, videos;
      if info.codec.Some? {
        v := Categorize(info.codec.value, off, tally);
        hide Categorize;
        if v.clear {
          vProfileCount := 0;
          if mixed {
            if cached {
              end := Some(Again);
            } else {
              end, abr := Some(NotCached), [];
            }
            return;
          }
          slot := ClearInPlace(slot);
          kept := [];
        }
      }
      if !v.ignore && c.InRange(streamInfo[slot]) {
        VideosAdd(kept, streamInfo[slot]);
        AddProfile(slot, kept);
        vProfileCount := vProfileCount + 1;
      } else {
        assert kept + [] == kept;
      }
    }

    method ParseStream(lines: seq<ManifestLine>, i: nat, c: Config, first: Flags, cached: bool, p: Progress)
      returns (p': Progress, end: Option<PassEnd>)
      requires streamInfo.Length == MAX_PROFILE
      requires i < |lines| && HasSlot(lines, i, first, c) && lines[i].Stream? && Reached(lines, i, first, c, p) &&
                 Holds(Rows(lines, i, first, c))
      modifies `abr, streamInfo
      ensures end.None? ==> Reached(lines, i + 1, first, c, p') && Holds(Rows(lines, i + 1, first, c))
      ensures end.Some? ==>
                && end == Some(if cached then Again else NotCached) && p'.videos == 0 && (!cached ==> abr == [])
                && ClearsAt(lines, i, first) && HasIFrame(lines, i, c) &&
                     Raised(first, EnabledRank(lines[i], first), p'.off)
    {
      hide Rows, Best, Holds, Videos, HasIFrame, StartsOver, VerdictOn, Tracks, Raised, ClearsAt, HasSlot;
      LineStep(lines, i, first, c);
      StreamStep(lines, i, first, c, p);
      SlotFree(lines, i, first, c);
      var v, videos;
      v, end, videos :=
        AddStream(lines[i].info, c, p.off, p.tally, p.mixed, cached, p.videos, Rows(lines, i, first, c));
      p' := Progress(v.off, v.tally, p.mixed, videos);
    }

    method ParseIFrame(lines: seq<ManifestLine>, i: nat, c: Config, first: Flags, p: Progress) returns (p': Progress)
      requires streamInfo.Length == MAX_PROFILE
      requires i < |lines| && HasSlot(lines, i, first, c) && lines[i].IFrame? && Reached(lines, i, first, c, p) &&
                 Holds(Rows(lines, i, first, c))
      modifies `abr, streamInfo
      ensures Reached(lines, i + 1, first, c, p') && Holds(Rows(lines, i + 1, first, c))
    {
      var info := lines[i].info;
      LineStep(lines, i, first, c);
      RowsStep(lines, i, first, c);
      ghost var rows := Rows(lines, i, first, c);
      hide Rows, Best, Holds, Tracks, Videos, HasIFrame, StartsOver;
      var added := AddIFrame(info, c, rows);
      p' := p.(mixed := p.mixed || added);
      assert Rows(lines, i + 1, first, c) == rows + if added then [info.(iframe := true)] else [];
    }

    lemma {:induction false} HoldsNothing()
      requires abr == []
      ensures Holds([])
    {
    }

    static lemma {:induction false} PassBegins(lines: seq<ManifestLine>, first: Flags, c: Config)
      ensures Reached(lines, 0, first, c, Progress(first, Tally(0, 0, 0, 0), false, 0))
      ensures Rows(lines, 0, first, c) == [] && Medias(lines, 0) == 0
    {
    }

    /** Reads the lines once, starting with the given flags; at is the line the pass ends at. */
    method ParsePass(lines: seq<ManifestLine>, c: Config, first: Flags, cached: bool)
      returns (p: Progress, end: PassEnd, ghost at: nat)
      requires streamInfo.Length == MAX_PROFILE && PassFits(lines, first, c)
      modifies `abr, `mediaCount, streamInfo
      ensures at <= Readable(lines, 0, 0)
      ensures end.Finished? ==>
                && at == Readable(lines, 0, 0) && end.status == EndStatus(lines, at)
                && Reached(lines, at, first, c, p) && Holds(Rows(lines, at, first, c)) &&
                     mediaCount == Medias(lines, at)
      ensures !end.Finished? ==>
                && at < Readable(lines, 0, 0) && ClearsAt(lines, at, first) && HasIFrame(lines, at, c)
                && Raised(first, EnabledRank(lines[at], first), p.off) && p.videos == 0
                && end == (if cached then Again else NotCached) && (!cached ==> abr == [])
    {
      hide Rows, Best, Holds, Tracks, Videos, HasIFrame, StartsOver, Raised, ClearsAt;
      p, abr, mediaCount, at := Progress(first, Tally(0, 0, 0, 0), false, 0), [], 0, 0;
      var i, lineNum := 0, 0;
      HoldsNothing();
      PassBegins(lines, first, c);
      while i < |lines|
        invariant 0 <= i <= |lines| && i <= Readable(lines, 0, 0) == Readable(lines, i, lineNum)
        invariant Reached(lines, i, first, c, p) && Holds(Rows(lines, i, first, c)) && mediaCount == Medias(lines, i)
      {
        at := i;
        LineStep(lines, i, first, c);
        RowsStep(lines, i, first, c);
        assert i < Readable(lines, 0, 0) ==> HasSlot(lines, i, first, c);
        if lines[i].SegmentInf? || (lines[i].ExtM3U? && lineNum > 0) {
          end := Finished(if lines[i].SegmentInf? then PlaylistPlayback else ContentError);
          return;
        }
        if lines[i].Stream? {
          hide Reached;
          var ended;
          p, ended := ParseStream(lines, i, c, first, cached, p);
          if ended.Some? {
            end := ended.value;
            return;
          }
        } else if lines[i].IFrame? {
          hide Reached;
          p := ParseIFrame(lines, i, c, first, p);
        } else {
          assert Rows(lines, i + 1, first, c) == Rows(lines, i, first, c);
          if lines[i].Media? {
            mediaCount := mediaCount + 1;
          }
        }
        if !lines[i].NoTag? {
          lineNum := lineNum + 1;
        }
        i := i + 1;
      }
      end, at := Finished(Ok), i;
    }

    lemma {:induction false} RowsObey(lines: seq<ManifestLine>, n: nat, c: Config)
      requires n <= |lines| && Holds(Chosen(lines, n, c))
      ensures forall k :: 0 <= k < |abr| ==> Obeys(streamInfo[k], lines, n, c) &&
                                             abr[k] == Profile(streamInfo[k].iframe, streamInfo[k].bandwidth)
    {
      hide Chosen, Obeys;
      ChosenObeys(lines, n, c);
      var rows := Chosen(lines, n, c);
      forall k | 0 <= k < |abr|
        ensures Obeys(streamInfo[k], lines, n, c) && abr[k] == Profile(streamInfo[k].iframe, streamInfo[k].bandwidth)
      {
        assert streamInfo[k] == streamInfo[..|rows|][k] && rows[k] in rows;
      }
    }

    /** Parses the manifest; cached says that it can be read again from the playlist cache. */
    method ParseMainManifest(lines: seq<ManifestLine>, c: Config, cached: bool)
      returns (status: Status, ghost restarts: nat)
      requires streamInfo.Length == MAX_PROFILE && Fits(lines, c)
      modifies `abr, `mediaCount, streamInfo
      ensures restarts <= 3
      ensures var n := Readable(lines, 0, 0);
              if StartsOver(lines, n, c.Initial(), c) && !cached then abr == [] && status == ContentError
              else
                && Holds(Chosen(lines, n, c)) && mediaCount == Medias(lines, n)
                && status == (if n == |lines| && Videos(Chosen(lines, n, c)) == 0 then ContentError
                              else EndStatus(lines, n))
                && forall k :: 0 <= k < |abr| ==> Obeys(streamInfo[k], lines, n, c) &&
                                                  abr[k] == Profile(streamInfo[k].iframe, streamInfo[k].bandwidth)
    {
      ghost var n := Readable(lines, 0, 0);
      ghost var m: nat := 0;
      var first, secondPass, videos := c.Initial(), true, 0;
      restarts, status := 0, Ok;
      while secondPass
        invariant PassStart(lines, n, m, first, c)
        invariant restarts == 0 || (restarts < m && StartsOver(lines, n, c.Initial(), c))
        invariant secondPass ==> status == Ok && (restarts == 0 <==> m == 0) && (restarts > 0 ==> cached)
        invariant !secondPass ==>
                    if StartsOver(lines, n, c.Initial(), c) && !cached then abr == [] && status == Ok && videos == 0
                    else Holds(Chosen(lines, n, c)) && mediaCount == Medias(lines, n) && status == EndStatus(lines, n)
                         && videos == Videos(Chosen(lines, n, c))
        decreases secondPass, 4 - m
      {
        var p, end;
        ghost var at;
        p, end, at := ParsePass(lines, c, first, cached);
        secondPass := end == Again;
        videos := p.videos;
        if end.Finished? {
          status := end.status;
          LastPassChooses(lines, n, m, first, c);
          if m == 0 {
            SameFlags(c.Initial(), first);
          }
        } else {
          StartOverRaises(lines, n, m, first, p.off, at, c);
          m := EnabledRank(lines[at], first);
          first := p.off;
          restarts := if secondPass then restarts + 1 else restarts;
        }
      }
      if !(StartsOver(lines, n, c.Initial(), c) && !cached) {
        RowsObey(lines, n, c);
      }
      if status == Ok && videos == 0 {
        status := ContentError;
      }
    }
  }
}
