/** What the lines between two segments say at normal speed: a segment goes out only after the section in
    force at its line has arrived, and when the end of the stream is reported. */
module LiveSections {
  import opened Common
  import opened Playlist
  import opened TrackModel
  import opened LiveRun
  import LiveGaps
  import TrackSync
  import WindowScan

  // ----- The lines a walk passes over ----------------------------------------------------------

  /** Some line of lines[i..k) names a section other than the one held. */
  ghost predicate Changes(lines: seq<Line>, i: int, k: int, held: Option<string>)
    requires 0 <= i && k <= |lines|
  {
    exists j :: i <= j < k && Other(lines[j], held)
  }

  predicate Other(l: Line, held: Option<string>) {
    l.Map? && Some(l.init) != held
  }

  /** Some line of lines[i..k) says that the stream ends. */
  ghost predicate Ends(lines: seq<Line>, i: int, k: int)
    requires 0 <= i && k <= |lines|
  {
    exists j :: i <= j < k && lines[j] == EndList
  }

  /** The line where a walk ended: that of the URI, or the one behind the last. */
  function StoppedAt(t: Track): int {
    if t.fragmentURI == -1 then |t.playlist| else t.fragmentURI
  }

  /** What a walk from line i leaves: the section named last, an injection to come if and only if one was
      pending or a line names another section than the one held before, and the end of the list noted if and
      only if it was or a line says so. */
  ghost predicate Passed(t: Track, r: Track, i: nat) {
    && r.playlist == t.playlist && i <= StoppedAt(r) <= |t.playlist|
    && (r.fragmentURI != -1 ==> 0 <= r.fragmentURI < |r.playlist| && r.playlist[r.fragmentURI].Uri?)
    && (r.injectInit <==> t.injectInit || Changes(t.playlist, i, StoppedAt(r), t.initFragment))
    && r.initFragment == SectionAt(t.playlist, i, StoppedAt(r), t.initFragment)
    && (r.reachedEndList <==> t.reachedEndList || Ends(t.playlist, i, StoppedAt(r)))
    && r.live == t.live && r.eosReached == t.eosReached
  }

  lemma {:induction false} ScanPasses(t: Track, i: nat)
    requires i <= |t.playlist|
    ensures Passed(t, Scan(t, i), i)
    decreases |t.playlist| - i
  {
    hide Passed, Scan, ReadTag, CountUri, TrackModel.Reached, SectionAt;
    if i == |t.playlist| {
      ScanPastEnd(t);
      PassedNone(t, -1, i);
    } else {
      ReadsSection(t, i);
      if t.playlist[i].Uri? {
        var u := CountUri(t);
        ScanUri(t, i);
        if TrackModel.Reached(u) {
          PassedNone(u, i, i);
        } else {
          ScanPasses(u, i + 1);
        }
        PassedOne(t, u, Scan(t, i), i);
      } else {
        var u := ReadTag(t.playlist[i], t);
        ScanTag(t, i);
        ScanPasses(u, i + 1);
        PassedOne(t, u, Scan(t, i), i);
      }
    }
  }

  /** What one line does to the section held. */
  lemma {:induction false} ReadsSection(t: Track, i: nat)
    requires i < |t.playlist|
    ensures var u := if t.playlist[i].Uri? then CountUri(t) else ReadTag(t.playlist[i], t);
            && u.playlist == t.playlist && u.initFragment == SectionAt(t.playlist, i, i + 1, t.initFragment)
            && u.injectInit == (t.injectInit || Other(t.playlist[i], t.initFragment))
            && u.reachedEndList == (t.reachedEndList || t.playlist[i] == EndList)
            && u.live == t.live && u.eosReached == t.eosReached
  {
  }

  lemma {:induction false} PassedNone(t: Track, uri: int, i: nat)
    requires i <= |t.playlist| && if i == |t.playlist| then uri == -1 else uri == i && t.playlist[i].Uri?
    ensures Passed(t, t.(fragmentURI := uri), i)
  {
  }

  /** One more line in front of a walk. */
  lemma {:induction false} PassedOne(t: Track, u: Track, r: Track, i: nat)
    requires i < |t.playlist| && u.playlist == t.playlist
    requires Passed(u, r, i + 1) || (Passed(u, r, i) && r.fragmentURI == i)
    requires u.initFragment == SectionAt(t.playlist, i, i + 1, t.initFragment)
    requires u.injectInit == (t.injectInit || Other(t.playlist[i], t.initFragment))
    requires u.reachedEndList == (t.reachedEndList || t.playlist[i] == EndList)
    requires u.live == t.live && u.eosReached == t.eosReached
    ensures Passed(t, r, i)
  {
    var lines, k := t.playlist, StoppedAt(r);
    if k > i {
      SectionSplit(lines, i, i + 1, k, t.initFragment);
      if Changes(lines, i, k, t.initFragment) && !Other(lines[i], t.initFragment) {
        var j :| i <= j < k && Other(lines[j], t.initFragment);
        assert Other(lines[j], u.initFragment);
      }
    }
  }

  lemma {:induction false} NextPasses(t: Track)
    requires t.WellFormed() && t.fragmentURI != -1
    ensures var r := NextFragment(t);
            || r == ClampTarget(t)
            || Passed(t, r, Resume(t))
  {
    ScanPasses(ClampTarget(t), Resume(t));
  }

  // ----- The section held ----------------------------------------------------------------------

  /** The section held is the one in force where the walk resumes, if one is. */
  ghost predicate HoldsSection(t: Track) {
    t.fragmentURI != -1 ==>
      t.WellFormed() && SectionAt(t.playlist, 0, Resume(t), None) in {None, t.initFragment}
  }

  lemma {:induction false} SectionFrom(lines: seq<Line>, i: nat, k: nat, held: Option<string>)
    requires k <= |lines|
    ensures SectionAt(lines, i, k, None) in {None, SectionAt(lines, i, k, held)}
  {
    if i < k {
      SectionFrom(lines, i, k - 1, held);
    }
  }

  /** After a walk the section held is the one in force at the line of the URI. */
  lemma {:induction false} WalkHolds(t: Track, r: Track)
    requires HoldsSection(t) && t.fragmentURI != -1 && Passed(t, r, Resume(t))
    ensures HoldsSection(r)
    ensures r.fragmentURI != -1 ==> SectionAt(r.playlist, 0, r.fragmentURI, None) in {None, r.initFragment}
  {
    if r.fragmentURI != -1 {
      SectionSplit(t.playlist, 0, Resume(t), r.fragmentURI, None);
      SectionFrom(t.playlist, Resume(t), r.fragmentURI, t.initFragment);
    }
  }

  lemma {:induction false} NextHolds(t: Track)
    requires HoldsSection(t) && t.fragmentURI != -1
    ensures HoldsSection(NextFragment(t))
  {
    hide Passed, Scan, HoldsSection;
    HoldsMeans(t);
    NextPasses(t);
    var r := NextFragment(t);
    if Passed(t, r, Resume(t)) {
      WalkHolds(t, r);
    } else {
      HoldsSame(t, r);
    }
  }

  lemma {:induction false} HoldsMeans(t: Track)
    requires HoldsSection(t) && t.fragmentURI != -1
    ensures t.WellFormed()
  {
  }

  lemma {:induction false} HoldsSame(t: Track, u: Track)
    requires HoldsSection(t) && u.playlist == t.playlist && u.fragmentURI == t.fragmentURI
    requires u.playlistPosition == t.playlistPosition && u.initFragment == t.initFragment
    ensures HoldsSection(u)
  {
  }

  // ----- A refresh finds the section again -----------------------------------------------------

  lemma {:induction false} SectionStep(lines: seq<Line>, i: nat, held: Option<string>)
    requires i < |lines|
    ensures SectionAt(lines, 0, i + 1, held) ==
            if lines[i].Map? then Some(lines[i].init) else SectionAt(lines, 0, i, held)
  {
  }

  /** The find takes the section in force at the segment it lands on. */
  lemma {:induction false} FindSection(t: Track, i: nat, seqNo: int, init: Option<string>)
    requires i <= |t.playlist| && t.initFragment.None? && init == SectionAt(t.playlist, 0, i, None)
    ensures var r := Find(t, i, seqNo, init);
            if r.fragmentURI == -1 then r.initFragment.None?
            else r.playlist[r.fragmentURI].Uri? && r.initFragment == SectionAt(r.playlist, 0, r.fragmentURI, None)
    decreases |t.playlist| - i
  {
    hide SectionAt;
    if i < |t.playlist| {
      SectionStep(t.playlist, i, None);
      match t.playlist[i]
      case Inf(d) => FindSection(t.(fragmentDuration := d), i + 1, seqNo, init);
      case MediaSequence(n) => FindSection(t, i + 1, n, init);
      case Map(m) => FindSection(t, i + 1, seqNo, Some(m));
      case Uri(_) =>
        if seqNo < t.nextMediaSequenceNumber - 1 {
          FindSection(t, i + 1, seqNo + 1, init);
        }
      case _ => FindSection(t, i + 1, seqNo, init);
    }
  }

  /** A refresh that brings content puts the cursor at a segment with the section in force there, or at the
      first line. */
  lemma {:induction false} RefreshHolds(t: Track, lines: seq<Line>)
    requires lines != [] && Refresh(t, lines).duration > 0.0
    ensures var r := Refresh(t, lines);
            && HoldsSection(r) && r.injectInit == t.injectInit && r.playTarget == t.playTarget && r.playlist == lines
            && (if r.fragmentURI <= 0 then r.initFragment.None?
                else r.playlistPosition == t.playlistPosition && lines[r.fragmentURI].Uri? &&
                     r.initFragment == SectionAt(lines, 0, r.fragmentURI, None))
  {
    hide IndexPlaylist, Find;
    var u := IndexPlaylist(t.(playlist := lines), true);
    IndexKeeps(t.(playlist := lines), true);
    FindKeeps(u, 0, 0, None);
    if u.live {
      FindSection(u, 0, 0, None);
    }
  }

  // ----- Runs ----------------------------------------------------------------------------------

  /** The section that arrived last, after a step. */
  function Loads(t: Track, s: Step, loaded: Option<string>): Option<string> {
    if s.Turn? && s.initFetched && Runs(t) && t.injectInit && t.initFragment.Some? then t.initFragment else loaded
  }

  /** No section is missing: an injection is pending, or the section held is the one that arrived last. */
  predicate NothingOwed(t: Track, loaded: Option<string>) {
    t.injectInit || t.initFragment in {None, loaded}
  }

  /** If the step hands out a segment, the section in force at its line is the one that arrived last. */
  ghost predicate Arrived(t: Track, s: Step, loaded: Option<string>) {
    Emits(t, s) != [] ==>
      var i := Apply(t, s).fragmentURI;
      0 <= i < |t.playlist| && SectionAt(t.playlist, 0, i, None) in {None, Loads(t, s, loaded)}
  }

  ghost predicate AllArrived(t: Track, steps: seq<Step>, loaded: Option<string>)
    decreases |steps|
  {
    steps == [] ||
    (Arrived(t, steps[0], loaded) && AllArrived(Apply(t, steps[0]), steps[1..], Loads(t, steps[0], loaded)))
  }

  /** A refresh brings content, and where it finds the cursor again the section in force is the one that
      arrived last, unless an injection is pending. */
  ghost predicate Continues(t: Track, s: Step, loaded: Option<string>) {
    s.Refreshed? && s.lines != [] ==>
      var r := Apply(t, s);
      r.duration > 0.0 &&
      (t.injectInit || !(0 < r.fragmentURI < |s.lines|) ||
       SectionAt(s.lines, 0, r.fragmentURI, None) in {None, loaded})
  }

  ghost predicate AllContinue(t: Track, steps: seq<Step>, loaded: Option<string>)
    decreases |steps|
  {
    steps == [] ||
    (Continues(t, steps[0], loaded) && AllContinue(Apply(t, steps[0]), steps[1..], Loads(t, steps[0], loaded)))
  }

  /** What SelectFragment does to the section is what the walk does. */
  lemma {:induction false} SelectIsNext(t: Track)
    requires t.WellFormed()
    ensures var u, n := SelectFragment(t), NextFragment(t);
            && u.fragmentURI == n.fragmentURI && u.playlist == n.playlist && u.playlistPosition == n.playlistPosition
            && u.initFragment == n.initFragment && u.injectInit == n.injectInit
  {
    hide NextFragment;
  }

  /** If a turn walks over a line that names another section than the one held, it hands out nothing, and
      that section is to be fetched. */
  lemma {:induction false} SectionGoesFirst(t: Track, initFetched: bool, outcome: Outcome)
    requires Runs(t)
    ensures var t' := Apply(t, Turn(initFetched, outcome));
            -1 <= t'.fragmentURI < |t.playlist| &&
            (Changes(t.playlist, Resume(t), StoppedAt(t'), t.initFragment) ==>
               && Emits(t, Turn(initFetched, outcome)) == [] && t'.injectInit && t'.initFragment.Some?
               && t'.initFragment == SectionAt(t.playlist, Resume(t), StoppedAt(t'), t.initFragment))
  {
    hide SelectFragment, NextFragment, SectionAt, Passed, Changes, Ends;
    var v := ServeInit(t, initFetched);
    if !v.injectInit {
      SelectIsNext(v);
      SelectStops(v);
    }
    NamesOne(t.playlist, Resume(t), StoppedAt(Apply(t, Turn(initFetched, outcome))), t.initFragment);
    NamesNone(t.playlist, Resume(t), StoppedAt(t), t.initFragment);
  }

  /** A selection that walked over another section leaves it to be fetched. */
  lemma {:induction false} SelectStops(v: Track)
    requires v.WellFormed() && v.fragmentURI != -1
    ensures var u := NextFragment(v);
            -1 <= u.fragmentURI < |v.playlist| &&
            (Changes(v.playlist, Resume(v), StoppedAt(u), v.initFragment) ==>
               u.injectInit && u.initFragment == SectionAt(v.playlist, Resume(v), StoppedAt(u), v.initFragment))
  {
    hide NextFragment, SectionAt;
    NextPasses(v);
  }

  lemma {:induction false} NamesNone(lines: seq<Line>, i: nat, k: int, held: Option<string>)
    requires k <= i && k <= |lines|
    ensures !Changes(lines, i, k, held)
  {
  }

  lemma {:induction false} NamesOne(lines: seq<Line>, i: nat, k: int, held: Option<string>)
    requires k <= |lines|
    ensures Changes(lines, i, k, held) ==> k >= 0 && SectionAt(lines, i, k, held).Some?
    decreases k - i
  {
    if i < k && !lines[k - 1].Map? {
      NamesOne(lines, i, k - 1, held);
      assert Changes(lines, i, k, held) ==> Changes(lines, i, k - 1, held);
    }
  }

  /** Then nothing is handed out before the section arrives, as long as the playlist is not replaced. */
  lemma {:induction false} NothingBeforeSection(t: Track, steps: seq<Step>)
    requires t.injectInit && t.initFragment.Some?
    requires forall i :: 0 <= i < |steps| ==> !steps[i].Refreshed? && (steps[i].Turn? ==> !steps[i].initFetched)
    ensures Emitted(t, steps) == [] && After(t, steps) == t
    decreases |steps|
  {
    hide FetchFragment, SelectFragment;
    if steps != [] {
      assert Apply(t, steps[0]) == t && Emits(t, steps[0]) == [];
      NothingBeforeSection(t, steps[1..]);
    }
  }

  /** A section that is to be fetched but not known is dropped: the turn is what it would be without it. */
  lemma {:induction false} UnknownSectionIsDropped(t: Track, initFetched: bool, outcome: Outcome)
    requires Runs(t) && t.initFragment.None?
    ensures var u, s := t.(injectInit := false), Turn(initFetched, outcome);
            Apply(t, s) == Apply(u, s) && Emits(t, s) == Emits(u, s)
  {
    hide FetchFragment, SelectFragment;
  }

  /** A download abandoned for a lower profile hands out nothing, and its section has to be fetched before
      anything else is. */
  lemma {:induction false} RampDownFetchesSection(t: Track, initFetched: bool, steps: seq<Step>)
    requires Emits(t, Turn(initFetched, Fetched)) != []
    requires forall i :: 0 <= i < |steps| ==> !steps[i].Refreshed? && (steps[i].Turn? ==> !steps[i].initFetched)
    ensures var u := Apply(t, Turn(initFetched, RampedDown));
            && Emits(t, Turn(initFetched, RampedDown)) == [] && u.injectInit
            && (u.initFragment.Some? ==> Emitted(u, steps) == [])
  {
    hide SelectFragment;
    var u := Apply(t, Turn(initFetched, RampedDown));
    if u.injectInit && u.initFragment.Some? {
      NothingBeforeSection(u, steps);
    }
  }

  lemma {:induction false} ServeHolds(t: Track, initFetched: bool, loaded: Option<string>)
    requires HoldsSection(t) && NothingOwed(t, loaded) && Runs(t)
    ensures var v := ServeInit(t, initFetched);
            && HoldsSection(v) && NothingOwed(v, Loads(t, Turn(initFetched, Fetched), loaded))
            && v.fragmentURI == t.fragmentURI && v.playlist == t.playlist
  {
  }

  /** A turn hands out a segment only with its section, and leaves none missing. */
  lemma {:induction false} TurnArrives(t: Track, initFetched: bool, outcome: Outcome, loaded: Option<string>)
    requires HoldsSection(t) && NothingOwed(t, loaded)
    ensures var s := Turn(initFetched, outcome);
            && Arrived(t, s, loaded)
            && HoldsSection(Apply(t, s)) && NothingOwed(Apply(t, s), Loads(t, s, loaded))
  {
    hide SelectFragment, NextFragment, HoldsSection, SectionAt, Passed;
    if Runs(t) {
      var v := ServeInit(t, initFetched);
      ServeHolds(t, initFetched, loaded);
      if !v.injectInit {
        var u := SelectFragment(v);
        SelectIsNext(v);
        SelectHolds(v, Loads(t, Turn(initFetched, outcome), loaded));
        HoldsSame(u, Apply(t, Turn(initFetched, outcome)));
      }
    }
  }

  lemma {:induction false} SelectHolds(v: Track, loaded: Option<string>)
    requires HoldsSection(v) && v.initFragment in {None, loaded} && Runs(v)
    ensures var u := SelectFragment(v);
            && HoldsSection(u) && NothingOwed(u, loaded) && u.WellFormed() && u.playlist == v.playlist
            && (Requests(u) && u.playlist[u.fragmentURI].Uri? ==>
                  SectionAt(u.playlist, 0, u.fragmentURI, None) in {None, loaded})
  {
    hide SelectFragment, NextFragment, SectionAt;
    SelectIsNext(v);
    NextPasses(v);
    NextHolds(v);
    var n := NextFragment(v);
    HoldsSame(n, SelectFragment(v));
    if Passed(v, n, Resume(v)) {
      WalkHolds(v, n);
      if !n.injectInit {
        Unchanged(v.playlist, Resume(v), StoppedAt(n), v.initFragment);
      }
    } else {
      HoldsAt(v);
    }
  }

  lemma {:induction false} HoldsAt(t: Track)
    requires HoldsSection(t) && t.fragmentURI != -1
    ensures 0 <= t.fragmentURI < |t.playlist|
    ensures t.playlist[t.fragmentURI].Uri? ==> SectionAt(t.playlist, 0, t.fragmentURI, None) in {None, t.initFragment}
  {
  }

  /** Without a line that names another section the one held stays. */
  lemma {:induction false} Unchanged(lines: seq<Line>, i: nat, k: int, held: Option<string>)
    requires i <= k <= |lines| && !Changes(lines, i, k, held)
    ensures SectionAt(lines, i, k, held) == held
    decreases k
  {
    if i < k {
      assert !Changes(lines, i, k - 1, held);
      assert !Other(lines[k - 1], held);
      Unchanged(lines, i, k - 1, held);
    }
  }

  lemma {:induction false} StepArrives(t: Track, s: Step, loaded: Option<string>)
    requires HoldsSection(t) && NothingOwed(t, loaded) && Continues(t, s, loaded)
    ensures Arrived(t, s, loaded) && HoldsSection(Apply(t, s)) && NothingOwed(Apply(t, s), Loads(t, s, loaded))
  {
    hide Refresh, LoopTurn, SectionAt;
    match s
    case Turn(initFetched, outcome) => TurnArrives(t, initFetched, outcome, loaded);
    case Refreshed(lines, _) =>
      if lines != [] {
        RefreshHolds(t, lines);
      } else {
        assert Refresh(t, []) == t by { RefreshFails(t); }
      }
    case _ =>
  }

  lemma {:induction false} RefreshFails(t: Track)
    ensures Refresh(t, []) == t
  {
  }

  /** Over every run a segment goes out only after the section in force at its line has arrived, and no
      section is ever missing, if every refresh continues with the section that arrived last or one is
      pending. */
  lemma {:induction false} SectionsArrive(t: Track, steps: seq<Step>, loaded: Option<string>)
    requires HoldsSection(t) && NothingOwed(t, loaded) && AllContinue(t, steps, loaded)
    ensures AllArrived(t, steps, loaded)
    decreases |steps|
  {
    hide Apply, Emits, HoldsSection, NothingOwed, Loads, Arrived, Continues;
    if steps != [] {
      StepArrives(t, steps[0], loaded);
      SectionsArrive(Apply(t, steps[0]), steps[1..], Loads(t, steps[0], loaded));
    }
  }

  // ----- When a refresh continues --------------------------------------------------------------

  /** It does if it lists, where it finds the cursor again, no section or the one that was in force before. */
  lemma {:induction false} SameSectionContinues(t: Track, lines: seq<Line>, w: Window, loaded: Option<string>)
    requires HoldsSection(t) && NothingOwed(t, loaded) && t.fragmentURI != -1
    requires var r := Refresh(t, lines);
             r.duration > 0.0 && 0 <= r.fragmentURI < |lines| &&
             SectionAt(lines, 0, r.fragmentURI, None) in {None, SectionAt(t.playlist, 0, Resume(t), None)}
    ensures Continues(t, Refreshed(lines, w), loaded)
  {
    hide Refresh, SectionAt;
  }

  /** And only if it continues a segment handed out next has its section. */
  lemma {:induction false} RefreshServes(t: Track, lines: seq<Line>, w: Window, initFetched: bool, outcome: Outcome,
                                         loaded: Option<string>)
    requires HoldsSection(t) && NothingOwed(t, loaded) && lines != [] && Refresh(t, lines).duration > 0.0
    requires Refresh(t, lines).fragmentURI > 0 && Emits(Refresh(t, lines), Turn(initFetched, outcome)) != []
    ensures Arrived(Refresh(t, lines), Turn(initFetched, outcome), loaded) <==>
              Continues(t, Refreshed(lines, w), loaded)
  {
    hide Refresh, SectionAt, SelectFragment, NextFragment, HoldsSection, Passed;
    var r := Refresh(t, lines);
    RefreshHolds(t, lines);
    if t.injectInit {
      TurnArrives(r, initFetched, outcome, loaded);
    } else {
      SelectIsNext(r);
      StandsUnder(r);
    }
  }

  /** A turn without a new section goes on under the one in force where it started. */
  lemma {:induction false} StandsUnder(r: Track)
    requires r.WellFormed() && r.fragmentURI > 0 && r.playlist[r.fragmentURI].Uri?
    requires r.initFragment == SectionAt(r.playlist, 0, r.fragmentURI, None)
    ensures var n := NextFragment(r);
            n.fragmentURI != -1 && n.injectInit == r.injectInit == false ==>
              0 <= n.fragmentURI < |r.playlist| && SectionAt(r.playlist, 0, n.fragmentURI, None) == r.initFragment
  {
    hide NextFragment, SectionAt;
    NextPasses(r);
    var n, lines := NextFragment(r), r.playlist;
    SectionStep(lines, r.fragmentURI, None);
    if Passed(r, n, Resume(r)) && n.fragmentURI != -1 && !n.injectInit {
      Unchanged(lines, Resume(r), n.fragmentURI, r.initFragment);
      SectionSplit(lines, 0, Resume(r), n.fragmentURI, None);
    }
  }

  /** A playlist of two segments behind a section. */
  function Behind(section: string): seq<Line> {
    [M3U, MediaSequence(0), Map(section), Inf(2.0), Uri("a"), Inf(2.0), Uri("b")]
  }

  lemma {:induction false} BehindLasts(t: Track, section: string)
    requires t.playlist == Behind(section) && t.index == [] && t.duration == 0.0
    ensures var u := IndexFrom(t, 1, Marks(None, false)); u.duration == 4.0 && u.live == t.live
  {
    var m := Marks(Some(section), false);
    var t1 := t.(indexFirst := 0);
    var t2 := AddSegment(t1, 3, 2.0, m);
    var t3 := AddSegment(t2, 5, 2.0, m);
    assert IndexFrom(t, 1, Marks(None, false)) == IndexFrom(t1, 2, Marks(None, false)) == IndexFrom(t1, 3, m);
    assert IndexFrom(t1, 3, m) == IndexFrom(t2, 4, m) == IndexFrom(t2, 5, m);
    assert IndexFrom(t2, 5, m) == IndexFrom(t3, 6, m) == IndexFrom(t3, 7, m);
  }

  /** The track handed out the first of two live segments behind section i. */
  ghost predicate PlayedFirst(t: Track) {
    && t.playlist == Behind("i") && t.live && t.fragmentURI == 4 && t.nextMediaSequenceNumber == 1
    && t.playlistPosition == 0.0 && t.playTarget == 2.0 && t.fragmentDuration == 2.0
    && t.initFragment == Some("i") && !t.injectInit
  }

  lemma {:induction false} FindsFirst(t: Track, section: string)
    requires PlayedFirst(t)
    ensures var r := Refresh(t, Behind(section));
            && r.duration == 4.0 && r.live && r.fragmentURI == 4 && r.initFragment == Some(section)
            && r == t.(playlist := Behind(section), initFragment := Some(section), index := r.index,
                       indexFirst := r.indexFirst, discontinuities := r.discontinuities, duration := r.duration,
                       culledSeconds := r.culledSeconds, currentIdx := r.currentIdx)
  {
    hide IndexFrom, CompletionTime;
    var v := t.(playlist := Behind(section));
    BehindLasts(FlushIndex(v), section);
    IndexKeeps(v, true);
    var u := IndexPlaylist(v, true);
    assert Find(u, 0, 0, None) == Find(u, 1, 0, None) == Find(u, 2, 0, None) == Find(u, 3, 0, Some(section));
    assert Find(u, 3, 0, Some(section)) == Find(u.(fragmentDuration := 2.0), 4, 0, Some(section));
  }

  /** The same track after the refresh, which has another section in force. */
  lemma {:induction false} SecondGoesOut(r: Track)
    requires r.playlist == Behind("j") && r.fragmentURI == 4 && r.nextMediaSequenceNumber == 1
    requires r.playlistPosition == 0.0 && r.playTarget == 2.0 && r.fragmentDuration == 2.0 && !r.injectInit
    ensures Emits(r, Turn(true, Fetched)) == [Out(1, "b")]
  {
    var u := ReadTag(Inf(2.0), r);
    assert Scan(r, 5) == Scan(u, 6);
    assert TrackModel.Reached(CountUri(u)) && Scan(u, 6) == CountUri(u).(fragmentURI := 6);
    assert NextFragment(r) == Scan(r, 5);
  }

  /** A refresh without a profile change replaces the section: the next segment goes out without it, which it
      would not if the section were the same. */
  lemma {:induction false} SectionIsMissed(t: Track, w: Window)
    requires PlayedFirst(t)
    ensures HoldsSection(t) && NothingOwed(t, Some("i"))
    ensures Continues(t, Refreshed(Behind("i"), w), Some("i")) && !Continues(t, Refreshed(Behind("j"), w), Some("i"))
    ensures var r := Apply(t, Refreshed(Behind("j"), w));
            Emits(r, Turn(true, Fetched)) == [Out(1, "b")] && !Arrived(r, Turn(true, Fetched), Some("i"))
  {
    hide Refresh, Emits;
    FindsFirst(t, "i");
    FindsFirst(t, "j");
    var r := Refresh(t, Behind("j"));
    SecondGoesOut(r);
    SectionBehind("i");
    SectionBehind("j");
    RefreshServes(t, Behind("j"), w, true, Fetched, Some("i"));
  }

  lemma {:induction false} SectionBehind(section: string)
    ensures SectionAt(Behind(section), 0, 4, None) == SectionAt(Behind(section), 0, 5, None) == Some(section)
  {
    var lines := Behind(section);
    assert SectionAt(lines, 0, 3, None) == Some(section);
  }

  /** A track that has not been walked yet misses no section, nor does one that was indexed and walked to its
      first segment. */
  lemma {:induction false} SectionsStart(lines: seq<Line>, seekPosition: real)
    requires lines != []
    ensures var t := NewTrack(lines, seekPosition); HoldsSection(t) && NothingOwed(t, None)
    ensures var u := IndexPlaylist(NewTrack(lines, seekPosition), false);
            u.WellFormed() && HoldsSection(TrackSync.Align(u)) && NothingOwed(TrackSync.Align(u), None)
  {
    hide IndexPlaylist, NextFragment;
    var t := NewTrack(lines, seekPosition);
    IndexKeeps(t, false);
    var u := IndexPlaylist(t, false);
    NextPasses(u);
    NextHolds(u);
    var n := NextFragment(u);
    HoldsSame(n, TrackSync.Align(u));
    if Passed(u, n, Resume(u)) && !n.injectInit {
      Unchanged(lines, 0, StoppedAt(n), None);
    }
  }

  // ----- The end of the stream -----------------------------------------------------------------

  /** A selection reports the end if and only if it finds no URI, its clock runs, and the stream is on-demand
      or a line up to the end of the playlist ends it. */
  lemma {:induction false} SelectEnds(v: Track)
    requires Runs(v)
    ensures var u := SelectFragment(v);
            && u.live == v.live && u.playlist == v.playlist
            && (u.reachedEndList ==> v.reachedEndList || Ends(v.playlist, 0, |v.playlist|))
            && (u.fragmentURI != -1 ==> u.eosReached == v.eosReached)
            && (u.fragmentURI == -1 ==>
                  u.eosReached == (v.eosReached ||
                                   (NextFragment(v).playlistPosition != -1.0 &&
                                    (!v.live || v.reachedEndList || Ends(v.playlist, Resume(v), |v.playlist|)))))
  {
    hide NextFragment;
    NextPasses(v);
  }

  /** When the last segment of a window went out, the next turn reports the end if and only if the stream is
      on-demand, or its playlist ends it behind that segment or did so before. */
  lemma {:induction false} LastSegmentEnds(t: Track, w: Window, b: Broadcast, outcome: Outcome)
    requires IsWindow(t.playlist, w, b) && Current(t) == w.Last() && !t.injectInit && Runs(t)
    requires t.fragmentURI == w.uriAt[w.Count() - 1] && t.playTarget > t.playlistPosition >= 0.0
    ensures var u := Apply(t, Turn(true, outcome));
            && u.fragmentURI == -1
            && (u.eosReached <==> t.eosReached || !t.live || t.reachedEndList ||
                                  Ends(t.playlist, t.fragmentURI + 1, |t.playlist|))
  {
    hide IsWindow, NextFragment;
    NextRunsDry(t, w, b);
    SelectEnds(t);
  }

  /** Over every live run without a line that ends the stream, the end is never reported. */
  lemma {:induction false} LiveNeverEnds(t: Track, w: Window, b: Broadcast, origin: int, steps: seq<Step>)
    requires InStep(t, w, b, origin) && Keeps(t, w, b, steps) && !t.eosReached && !t.reachedEndList
    ensures !After(t, steps).eosReached
    decreases |steps|
  {
    hide Apply, Emits, OnAir, AtSegment, Keeps;
    if steps != [] {
      LiveStep(t, w, b, origin, steps);
      StepNeverEnds(t, w, b, origin, steps);
      LiveNeverEnds(Apply(t, steps[0]), NextWindow(w, steps[0]), b, origin, steps[1..]);
    }
  }

  /** A new track of a live window, indexed and walked to its seek position, is in step with the segment that
      covers the position due, nothing culled or passed over, and no end noted. */
  lemma {:induction false} NewSession(lines: seq<Line>, w: Window, b: Broadcast, n: int, seekPosition: real)
    requires IsWindow(lines, w, b) && StaysLive(lines) && Positive(b) && w.Has(n) && seekPosition >= 0.0
    requires LiveGaps.Covers(b, w.first, n, seekPosition)
    requires forall m :: w.first <= m < n ==> !LiveGaps.Covers(b, w.first, m, seekPosition)
    ensures lines != []
    ensures var r := TrackSync.Align(IndexPlaylist(NewTrack(lines, seekPosition), false));
            && InStep(r, w, b, w.first) && NextOut(r) == n && !r.eosReached && !r.reachedEndList
            && r.playTargetOffset == r.culledSeconds == 0.0
  {
    var t := NewTrack(lines, seekPosition);
    WindowScan.HasSegments(lines, w, b);
    TrackSync.SessionStarts(t, w, b, n);
    hide IndexPlaylist, NextFragment, IsWindow, InStep, StaysLive;
    IndexKeeps(t, false);
    var u := IndexPlaylist(t, false);
    LiveGaps.WalkFromStart(u, w, b, n);
    NextPasses(u);
    NeverEnds(TrackSync.Align(u), w, b, w.first, 0);
  }

  lemma {:induction false} StepNeverEnds(t: Track, w: Window, b: Broadcast, origin: int, steps: seq<Step>)
    requires InStep(t, w, b, origin) && steps != [] && Keeps(t, w, b, steps) && !t.eosReached && !t.reachedEndList
    ensures var u := Apply(t, steps[0]); !u.eosReached && !u.reachedEndList
  {
    hide SelectFragment, AfterDownload, OnAir, AtSegment, Refresh;
    match steps[0]
    case Turn(initFetched, outcome) => TurnNeverEnds(t, w, b, origin, initFetched, outcome);
    case Refreshed(lines, _) => RefreshNeverEnds(t, lines);
    case _ =>
  }

  lemma {:induction false} TurnNeverEnds(t: Track, w: Window, b: Broadcast, origin: int, initFetched: bool,
                                         outcome: Outcome)
    requires InStep(t, w, b, origin) && !t.eosReached && !t.reachedEndList
    ensures var u := Apply(t, Turn(initFetched, outcome)); !u.eosReached && !u.reachedEndList
  {
    hide SelectFragment, NextFragment, OnAir, AtSegment, Ends;
    if Runs(t) {
      var v := ServeInit(t, initFetched);
      ServeInStep(t, w, b, origin, initFetched);
      if !v.injectInit {
        SelectInStep(v, w, b, origin);
        PointsInside(SelectFragment(v), w, b, origin);
        SelectIsNext(v);
        SelectEnds(v);
        NeverEnds(v, w, b, origin, 0);
        NeverEnds(v, w, b, origin, Resume(v));
      }
    }
  }

  lemma {:induction false} NeverEnds(t: Track, w: Window, b: Broadcast, origin: int, i: nat)
    requires InStep(t, w, b, origin)
    ensures t.live && !Ends(t.playlist, i, |t.playlist|)
  {
  }

  lemma {:induction false} RefreshNeverEnds(t: Track, lines: seq<Line>)
    ensures var u := Refresh(t, lines); u.eosReached == t.eosReached && u.reachedEndList == t.reachedEndList
  {
    hide IndexPlaylist, Find;
    IndexKeeps(t.(playlist := lines), true);
    FindKeeps(IndexPlaylist(t.(playlist := lines), true), 0, 0, None);
  }
}
