/** Choice of the audio track of the current profile's group (GetBestAudioTrackByLanguage): one scan
    with a shrinking range of preferred languages, against its priority rules. */
module AudioTrack {
  import opened Common

  const MAX_LANGUAGE_TAG_LENGTH: nat := 32

  /** A media entry of the main manifest, with its language code. */
  datatype Media = Media(group: Option<string>, language: string, isDefault: bool, autoselect: bool)

  /** The player's language settings. */
  datatype Wishes = Wishes(language: string, noExplicitUserLanguageSelection: bool, preferred: seq<string>)

  // ----- Languages -----------------------------------------------------------------------------

  /** The text before the first '-', from i on. */
  function Dash(tag: string, i: nat): (k: nat)
    requires i <= |tag|
    ensures i <= k <= |tag| && (k < |tag| ==> tag[k] == '-') && forall j :: i <= j < k ==> tag[j] != '-'
    decreases |tag| - i
  {
    if i < |tag| && tag[i] != '-' then Dash(tag, i + 1) else i
  }

  function LanguagePart(tag: string): (r: string)
    ensures r <= tag && '-' !in r && (r == tag || tag[|r|] == '-')
  {
    tag[..Dash(tag, 0)]
  }

  /** What a comparison of at most MAX_LANGUAGE_TAG_LENGTH characters sees. */
  function Compared(tag: string): string {
    if |tag| > MAX_LANGUAGE_TAG_LENGTH then tag[..MAX_LANGUAGE_TAG_LENGTH] else tag
  }

  /** The first position of a language in list[..n]; n if it is not there. */
  function Position(list: seq<string>, language: string, n: nat): (k: nat)
    requires n <= |list|
    ensures k <= n && (k < n ==> list[k] == language) && forall i :: 0 <= i < k ==> list[i] != language
  {
    if n == 0 then 0
    else
      var k := Position(list, language, n - 1);
      if k < n - 1 || list[n - 1] == language then k else n
  }

  // ----- The rules -----------------------------------------------------------------------------

  /** The first of media[..n] with the given property; -1 if none has it. */
  function First(media: seq<Media>, has: Media -> bool, n: nat): (r: int)
    requires n <= |media|
    ensures -1 <= r < n
  {
    if n == 0 then -1
    else
      var r := First(media, has, n - 1);
      if r >= 0 then r else if has(media[n - 1]) then n - 1 else -1
  }

  lemma {:induction false} FirstIs(media: seq<Media>, has: Media -> bool, n: nat)
    requires n <= |media|
    ensures var r := First(media, has, n);
            (r >= 0 ==> has(media[r])) && forall i :: 0 <= i < (if r >= 0 then r else n) ==> !has(media[i])
  {
    if n > 0 {
      FirstIs(media, has, n - 1);
    }
  }

  /** What is found first stays found. */
  lemma {:induction false} FirstStays(media: seq<Media>, has: Media -> bool, m: nat, n: nat)
    requires m <= n <= |media| && First(media, has, m) >= 0
    ensures First(media, has, n) == First(media, has, m)
  {
    if m < n {
      FirstStays(media, has, m, n - 1);
    }
  }

  predicate InGroup(m: Media, group: string) { m.group == Some(group) }

  function OfGroup(group: string): Media -> bool { m => InGroup(m, group) }

  function Exact(w: Wishes, group: string): Media -> bool {
    m => InGroup(m, group) && Compared(m.language) == Compared(w.language)
  }

  function SameLanguage(w: Wishes, group: string): Media -> bool {
    m => InGroup(m, group) && LanguagePart(m.language) != "" && LanguagePart(m.language) == LanguagePart(w.language)
  }

  function Default(group: string): Media -> bool { m => InGroup(m, group) && (m.isDefault || m.autoselect) }

  /** How far down the list of preferred languages a track is. */
  function Rank(m: Media, w: Wishes, group: string): nat {
    if InGroup(m, group) then Position(w.preferred, LanguagePart(m.language), |w.preferred|) else |w.preferred|
  }

  function AtRank(w: Wishes, group: string, rank: nat): Media -> bool { m => Rank(m, w, group) == rank }

  /** The smallest rank in media[..n]. */
  function BestRank(media: seq<Media>, w: Wishes, group: string, n: nat): (k: nat)
    requires n <= |media|
    ensures k <= |w.preferred| && forall i :: 0 <= i < n ==> k <= Rank(media[i], w, group)
  {
    if n == 0 then |w.preferred|
    else
      var k := BestRank(media, w, group, n - 1);
      if Rank(media[n - 1], w, group) < k then Rank(media[n - 1], w, group) else k
  }

  /** The first track that attains the smallest rank, if any track is on the list. */
  function Preferred(media: seq<Media>, w: Wishes, group: string, n: nat): int
    requires n <= |media|
  {
    var best := BestRank(media, w, group, n);
    if best < |w.preferred| then First(media, AtRank(w, group, best), n) else -1
  }

  /** The rules in order of priority. A track that matches an explicitly selected language exactly comes
      first; a preferred language goes before the same language unless the language was selected. */
  function Choice(media: seq<Media>, w: Wishes, group: Option<string>): int {
    if group.None? then -1
    else
      var g, n := group.value, |media|;
      var exact := First(media, Exact(w, g), n);
      var preferred := Preferred(media, w, g, n);
      var same := First(media, SameLanguage(w, g), n);
      if !w.noExplicitUserLanguageSelection && exact >= 0 then exact
      else if w.noExplicitUserLanguageSelection && preferred >= 0 then preferred
      else if same >= 0 then same
      else if preferred >= 0 then preferred
      else if exact >= 0 then exact
      else
        var default := First(media, Default(g), n);
        if default >= 0 then default else First(media, OfGroup(g), n)
  }

  // ----- The scan ------------------------------------------------------------------------------

  /** A shorter search range finds the same position when it is in range. */
  lemma {:induction false} PositionPrefix(list: seq<string>, language: string, n: nat)
    requires n <= |list|
    ensures var k := Position(list, language, |list|); Position(list, language, n) == if k < n then k else n
  {
  }

  /** A better rank starts anew; any other track changes nothing. */
  lemma {:induction false} PreferredStep(media: seq<Media>, w: Wishes, group: string, n: nat)
    requires n < |media|
    ensures var best, rank := BestRank(media, w, group, n), Rank(media[n], w, group);
            && BestRank(media, w, group, n + 1) == (if rank < best then rank else best)
            && Preferred(media, w, group, n + 1) == if rank < best then n else Preferred(media, w, group, n)
  {
    var best, rank := BestRank(media, w, group, n), Rank(media[n], w, group);
    if rank < best {
      FirstIs(media, AtRank(w, group, rank), n);
    } else if best < |w.preferred| {
      Attained(media, w, group, n);
    }
  }

  lemma {:induction false} Attained(media: seq<Media>, w: Wishes, group: string, n: nat)
    requires n <= |media| && BestRank(media, w, group, n) < |w.preferred|
    ensures First(media, AtRank(w, group, BestRank(media, w, group, n)), n) >= 0
  {
    if n > 0 && Rank(media[n - 1], w, group) != BestRank(media, w, group, n) {
      Attained(media, w, group, n - 1);
    }
  }

  lemma {:induction false} RankWithin(m: Media, w: Wishes, group: string, n: nat)
    requires n <= |w.preferred| && InGroup(m, group)
    ensures var k := Position(w.preferred, LanguagePart(m.language), n); k < n <==> Rank(m, w, group) < n
    ensures Rank(m, w, group) < n ==> Position(w.preferred, LanguagePart(m.language), n) == Rank(m, w, group)
  {
    PositionPrefix(w.preferred, LanguagePart(m.language), n);
  }

  /** A track outside the group changes none of the candidates. */
  lemma {:induction false} OutsideStep(media: seq<Media>, w: Wishes, group: string, n: nat)
    requires n < |media| && !InGroup(media[n], group)
    ensures First(media, OfGroup(group), n + 1) == First(media, OfGroup(group), n)
    ensures First(media, Exact(w, group), n + 1) == First(media, Exact(w, group), n)
    ensures First(media, SameLanguage(w, group), n + 1) == First(media, SameLanguage(w, group), n)
    ensures First(media, Default(group), n + 1) == First(media, Default(group), n)
    ensures Preferred(media, w, group, n + 1) == Preferred(media, w, group, n)
    ensures BestRank(media, w, group, n + 1) == BestRank(media, w, group, n)
  {
    PreferredStep(media, w, group, n);
  }

  /** The single scan follows the rules. */
  method GetBestAudioTrackByLanguage(media: seq<Media>, w: Wishes, group: Option<string>) returns (track: int)
    ensures track == Choice(media, w, group)
  {
    var firstTrack, firstMatchingLanguage, defaultTrack, notExplicitTrack, preferredTrack := -1, -1, -1, -1, -1;
    var currentIndex := |w.preferred|;
    if group.Some? {
      var g := group.value;
      for i := 0 to |media|
        invariant firstTrack == First(media, OfGroup(g), i)
        invariant firstMatchingLanguage == First(media, SameLanguage(w, g), i)
        invariant defaultTrack == First(media, Default(g), i)
        invariant notExplicitTrack == First(media, Exact(w, g), i) &&
                    (!w.noExplicitUserLanguageSelection ==> notExplicitTrack == -1)
        invariant preferredTrack == Preferred(media, w, g, i) && currentIndex == BestRank(media, w, g, i)
      {
        var m := media[i];
        PreferredStep(media, w, g, i);
        if m.group == Some(g) {
          hide Preferred, BestRank, Rank, LanguagePart, Compared;
          if notExplicitTrack < 0 && Compared(w.language) == Compared(m.language) {
            if !w.noExplicitUserLanguageSelection {
              FirstStays(media, Exact(w, g), i + 1, |media|);
              return i;
            }
            notExplicitTrack := i;
          }
          RankWithin(m, w, g, currentIndex);
          if currentIndex > 0 {
            var position := Position(w.preferred, LanguagePart(m.language), currentIndex);
            if position != currentIndex {
              currentIndex, preferredTrack := position, i;
            }
          }
          if firstTrack < 0 {
            firstTrack := i;
          }
          if firstMatchingLanguage < 0 {
            if LanguagePart(m.language) != "" && LanguagePart(m.language) == LanguagePart(w.language) {
              firstMatchingLanguage := i;
            }
          }
          if defaultTrack < 0 {
            if m.isDefault || m.autoselect {
              defaultTrack := i;
            }
          }
        } else {
          OutsideStep(media, w, g, i);
        }
      }
    }
    if !(w.noExplicitUserLanguageSelection && preferredTrack >= 0) && firstMatchingLanguage >= 0 {
      return firstMatchingLanguage;
    }
    if preferredTrack >= 0 {
      return preferredTrack;
    }
    if notExplicitTrack >= 0 {
      return notExplicitTrack;
    }
    if defaultTrack >= 0 {
      return defaultTrack;
    }
    return firstTrack;
  }

  // ----- What the rules mean -------------------------------------------------------------------

  /** A track is chosen exactly when the profile has a group and the group has a track, and it is one of
      the group. */
  lemma {:induction false} ChoiceIsOfGroup(media: seq<Media>, w: Wishes, group: Option<string>)
    ensures var c := Choice(media, w, group);
            && (c == -1 <==> group.None? || forall i :: 0 <= i < |media| ==> !InGroup(media[i], group.value))
            && (c != -1 ==> 0 <= c < |media| && media[c].group == group)
  {
    if group.Some? {
      var g := group.value;
      PreferredIs(media, w, g);
      FirstIs(media, Exact(w, g), |media|);
      FirstIs(media, SameLanguage(w, g), |media|);
      FirstIs(media, Default(g), |media|);
      FirstIs(media, OfGroup(g), |media|);
    }
  }

  /** The preferred candidate is the first track of the group that comes first on the list of preferred
      languages; there is none exactly when no track's language is on the list. */
  lemma {:induction false} PreferredIs(media: seq<Media>, w: Wishes, group: string)
    ensures var p := Preferred(media, w, group, |media|);
            && -1 <= p < |media|
            && (p == -1 <==> forall i :: 0 <= i < |media| ==> Rank(media[i], w, group) == |w.preferred|)
            && (p >= 0 ==>
                  && InGroup(media[p], group) && Rank(media[p], w, group) < |w.preferred|
                  && (forall i :: 0 <= i < |media| ==> Rank(media[p], w, group) <= Rank(media[i], w, group))
                  && forall i :: 0 <= i < p ==> Rank(media[p], w, group) < Rank(media[i], w, group))
  {
    if BestRank(media, w, group, |media|) < |w.preferred| {
      FirstIs(media, AtRank(w, group, BestRank(media, w, group, |media|)), |media|);
      Attained(media, w, group, |media|);
    }
  }

  /** The language of a track of the group is the user's, tag for tag. */
  predicate SameTag(m: Media, w: Wishes, g: string) {
    m.group == Some(g) &&
    (m.language == w.language ||
     (|m.language| >= 32 && |w.language| >= 32 && m.language[..32] == w.language[..32]))
  }

  /** It is the user's but for what follows the '-'. */
  predicate SameBase(m: Media, w: Wishes, g: string) {
    m.group == Some(g) && LanguagePart(m.language) == LanguagePart(w.language) != ""
  }

  /** It is on the list of preferred languages. */
  predicate Listed(m: Media, w: Wishes, g: string) {
    m.group == Some(g) && LanguagePart(m.language) in w.preferred
  }

  predicate Marked(m: Media, g: string) {
    m.group == Some(g) && (m.isDefault || m.autoselect)
  }

  /** Track c is the first one with the given property, or c is -1 and there is none. */
  ghost predicate IsFirst(media: seq<Media>, has: Media -> bool, c: int) {
    if c == -1 then forall i :: 0 <= i < |media| ==> !has(media[i])
    else 0 <= c < |media| && has(media[c]) && forall i :: 0 <= i < c ==> !has(media[i])
  }

  lemma {:induction false} FirstIsFirst(media: seq<Media>, found: Media -> bool, has: Media -> bool)
    requires forall m :: found(m) == has(m)
    ensures IsFirst(media, has, First(media, found, |media|))
  {
    FirstIs(media, found, |media|);
  }

  /** The track chosen, rule by rule: the exact language if the user selected it; a preferred language if not;
      then the same language; then, after all, a preferred language, the exact language, a default track, and
      any track of the group. Each rule takes the first of its tracks, and that of the preferred languages
      the first of those whose language is listed first. */
  lemma {:induction false} ChosenByRules(media: seq<Media>, w: Wishes, g: string)
    returns (tag: int, base: int, listed: int, marked: int, any: int)
    ensures IsFirst(media, m => SameTag(m, w, g), tag) && IsFirst(media, m => SameBase(m, w, g), base)
    ensures IsFirst(media, m => Marked(m, g), marked) && IsFirst(media, (m: Media) => m.group == Some(g), any)
    ensures if listed == -1 then forall m :: m in media ==> !Listed(m, w, g)
            else 0 <= listed < |media| && Listed(media[listed], w, g) && listed == Preferred(media, w, g, |media|)
    ensures var c, selected := Choice(media, w, Some(g)), !w.noExplicitUserLanguageSelection;
            && (selected && tag != -1 ==> c == tag)
            && (selected && tag == -1 && base != -1 ==> c == base)
            && (!selected && listed != -1 ==> c == listed)
            && (!selected && listed == -1 && base != -1 ==> c == base)
            && (selected && tag == -1 && base == -1 && listed != -1 ==> c == listed)
            && (!selected && listed == -1 && base == -1 && tag != -1 ==> c == tag)
            && (tag == base == listed == -1 ==> c == if marked != -1 then marked else any)
  {
    hide First, Preferred, Rank, LanguagePart, Compared, BestRank;
    var n := |media|;
    tag, base, listed := First(media, Exact(w, g), n), First(media, SameLanguage(w, g), n), Preferred(media, w, g, n);
    marked, any := First(media, Default(g), n), First(media, OfGroup(g), n);
    forall m ensures Exact(w, g)(m) == SameTag(m, w, g) {
      TagsCompare(m.language, w.language);
    }
    FirstIsFirst(media, Exact(w, g), m => SameTag(m, w, g));
    FirstIsFirst(media, SameLanguage(w, g), m => SameBase(m, w, g));
    FirstIsFirst(media, Default(g), m => Marked(m, g));
    FirstIsFirst(media, OfGroup(g), (m: Media) => m.group == Some(g));
    PreferredListed(media, w, g);
  }

  lemma {:induction false} TagsCompare(a: string, b: string)
    ensures Compared(a) == Compared(b) <==> a == b || (|a| >= 32 && |b| >= 32 && a[..32] == b[..32])
  {
    if |a| >= 32 && |b| >= 32 && a[..32] == b[..32] {
      assert Compared(a) == a[..32] && Compared(b) == b[..32];
    }
  }

  lemma {:induction false} PreferredListed(media: seq<Media>, w: Wishes, g: string)
    ensures var p := Preferred(media, w, g, |media|);
            if p == -1 then forall m :: m in media ==> !Listed(m, w, g)
            else 0 <= p < |media| && Listed(media[p], w, g)
  {
    PreferredIs(media, w, g);
    hide Preferred;
    if Preferred(media, w, g, |media|) == -1 {
      forall m | m in media ensures !Listed(m, w, g) {
        var i :| 0 <= i < |media| && media[i] == m;
        assert Rank(media[i], w, g) == |w.preferred|;
      }
    }
  }

  /** A default language that the user did not select never chooses a track by exact match: a
      track of the same language comes first, unless the language part is empty. */
  lemma {:induction false} ExactIsShadowed(media: seq<Media>, w: Wishes, group: string)
    requires |w.language| < MAX_LANGUAGE_TAG_LENGTH && LanguagePart(w.language) != ""
    requires First(media, Exact(w, group), |media|) >= 0
    ensures var same := First(media, SameLanguage(w, group), |media|);
            0 <= same <= First(media, Exact(w, group), |media|)
  {
    var e := First(media, Exact(w, group), |media|);
    FirstIs(media, Exact(w, group), |media|);
    FirstIs(media, SameLanguage(w, group), |media|);
    TagsCompare(w.language, media[e].language);
  }
}
