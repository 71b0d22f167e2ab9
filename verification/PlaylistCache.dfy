/** The playlist cache (AampCacheHandler) as a map from URLs to what is cached under them. */
module PlaylistCache {

  import opened Common

  datatype MediaType =
    VIDEO | AUDIO | SUBTITLE | MANIFEST | LICENCE | IFRAME | INIT_VIDEO | INIT_AUDIO | INIT_SUBTITLE
    | PLAYLIST_VIDEO | PLAYLIST_AUDIO | PLAYLIST_SUBTITLE | PLAYLIST_IFRAME | INIT_IFRAME | DSM_CC | DEFAULT

  type int32 = x: int | -0x8000_0000 <= x < 0x8000_0000

  const UNLIMITED: int32 := -1

  const SIZE_T_RANGE := 0x1_0000_0000_0000_0000

  /** A limit as the unsigned size it is compared as. */
  function AsSizeT(limit: int32): nat {
    if limit < 0 then limit + SIZE_T_RANGE else limit
  }

  /** A duplicate entry shares the bytes of another one and owns nothing. */
  datatype Entry = Entry(bytes: seq<byte>, effectiveUrl: string, fileType: MediaType, duplicate: bool)
  {
    function Size(): nat { if duplicate then 0 else |bytes| }
  }

  type Entries = map<string, Entry>

  /** leaked counts the bytes of owning entries that were overwritten since the last clearing; the
      program does not record it. */
  datatype Cache = Cache(entries: Entries, stored: int, limit: int32, leaked: nat)

  // ----- Owned bytes -------------------------------------------------------------------------

  ghost function Owned(entries: Entries): nat
    decreases |entries|
  {
    if entries == map[] then 0
    else
      var url :| url in entries;
      entries[url].Size() + Owned(entries - {url})
  }

  lemma {:induction false} OwnedWithout(entries: Entries, url: string)
    requires url in entries
    ensures Owned(entries) == entries[url].Size() + Owned(entries - {url})
    decreases |entries|
  {
    var first :| first in entries && Owned(entries) == entries[first].Size() + Owned(entries - {first});
    if first != url {
      OwnedWithout(entries - {first}, url);
      OwnedWithout(entries - {url}, first);
      assert entries - {first} - {url} == entries - {url} - {first};
    }
  }

  lemma {:induction false} OwnedWith(entries: Entries, url: string, e: Entry)
    ensures Owned(entries[url := e]) == Owned(entries) + e.Size() - if url in entries then entries[url].Size() else 0
  {
    OwnedWithout(entries[url := e], url);
    if url in entries {
      OwnedWithout(entries, url);
      assert entries[url := e] - {url} == entries - {url};
    } else {
      assert entries[url := e] - {url} == entries;
    }
  }

  /** The entries of a map that are not kept own what the map owns and the kept ones do not. */
  lemma {:induction false} OwnedKept(entries: Entries, kept: Entries)
    requires kept.Keys <= entries.Keys && forall url :: url in kept ==> kept[url] == entries[url]
    ensures Owned(kept) <= Owned(entries)
    decreases |entries|
  {
    if url :| url in entries && url !in kept {
      OwnedWithout(entries, url);
      OwnedKept(entries - {url}, kept);
    } else {
      assert kept == entries;
    }
  }

  // ----- Eviction ------------------------------------------------------------------------------

  /** First pass: playlists of the given type go, except a main manifest. */
  function KeptOfOtherTypes(entries: Entries, fileType: MediaType): Entries {
    map url | url in entries && (entries[url].fileType == MANIFEST || entries[url].fileType != fileType) :: entries[url]
  }

  /** Second pass: everything goes except a main manifest. */
  function KeptManifest(entries: Entries): Entries {
    map url | url in entries && entries[url].fileType == MANIFEST :: entries[url]
  }

  function Cleared(c: Cache): Cache {
    c.(entries := map[], stored := 0, leaked := 0)
  }

  /** What the two passes keep when newLen bytes are needed. */
  ghost function Kept(entries: Entries, fileType: MediaType, newLen: nat): Entries {
    var kept := KeptOfOtherTypes(entries, fileType);
    if Owned(entries) - Owned(kept) < newLen then KeptManifest(kept) else kept
  }

  /** Makes room for newLen bytes of the given type; the second value says whether enough was freed. */
  ghost function Allocate(c: Cache, fileType: MediaType, newLen: nat): (Cache, bool) {
    if c.entries == map[] then (c, true)
    else if fileType == MANIFEST then (Cleared(c), true)
    else
      var kept := Kept(c.entries, fileType, newLen);
      var freed := Owned(c.entries) - Owned(kept);
      (c.(entries := kept, stored := c.stored - freed), freed >= newLen)
  }

  // ----- Insertion -----------------------------------------------------------------------------

  datatype Playlist = Playlist(url: string, bytes: seq<byte>, effectiveUrl: string, isLive: bool, fileType: MediaType)

  /** Only VOD playlists and main manifests are cached, and what is cached already stays. */
  predicate Wanted(c: Cache, p: Playlist) {
    (!p.isLive || p.fileType == MANIFEST) && p.url !in c.entries
  }

  /** A new main manifest flushes the playlists of the old one. */
  function Flushed(c: Cache, p: Playlist): Cache {
    if p.fileType == MANIFEST && c.entries != map[] then Cleared(c) else c
  }

  /** The cache after room was made for the playlist, and whether it is going to be stored. */
  ghost function Admit(c: Cache, p: Playlist): (Cache, bool) {
    if !Wanted(c, p) then (c, false)
    else
      var u := Flushed(c, p);
      if u.limit == UNLIMITED then (u, true)
      else if |p.bytes| >= AsSizeT(u.limit) then (u, false)
      else if u.stored + |p.bytes| > AsSizeT(u.limit) then Allocate(u, p.fileType, |p.bytes|)
      else (u, true)
  }

  /** The bytes are stored once, under the URL and under the effective URL. */
  function Store(c: Cache, url: string, bytes: seq<byte>, effectiveUrl: string, fileType: MediaType): Cache {
    var u := c.(entries := c.entries[url := Entry(bytes, effectiveUrl, fileType, false)], stored := c.stored + |bytes|);
    if url == effectiveUrl then u
    else
      u.(entries := u.entries[effectiveUrl := Entry(bytes, effectiveUrl, fileType, true)],
         leaked := u.leaked + if effectiveUrl in u.entries then u.entries[effectiveUrl].Size() else 0)
  }

  ghost function Insert(c: Cache, p: Playlist): Cache {
    var (u, ready) := Admit(c, p);
    if ready then Store(u, p.url, p.bytes, p.effectiveUrl, p.fileType) else u
  }

  // ----- The byte budget -----------------------------------------------------------------------

  /** The stored size counts the owned bytes and the leaked ones, and the owned bytes are within the
      limit. */
  ghost predicate Sound(c: Cache) {
    && c.stored == Owned(c.entries) + c.leaked
    && (c.limit != UNLIMITED ==> Owned(c.entries) <= AsSizeT(c.limit))
  }

  lemma {:induction false} AllocateSound(c: Cache, fileType: MediaType, newLen: nat)
    requires Sound(c)
    ensures var (u, ready) := Allocate(c, fileType, newLen);
            && Sound(u) && u.limit == c.limit && u.entries.Keys <= c.entries.Keys
            && (ready ==> Owned(u.entries) + newLen <= Owned(c.entries) || u.entries == map[])
            && (fileType != MANIFEST ==> u.leaked == c.leaked)
  {
    if c.entries != map[] && fileType != MANIFEST {
      OwnedKept(c.entries, Kept(c.entries, fileType, newLen));
    }
  }

  lemma {:induction false} OwnedNothing()
    ensures Owned(map[]) == 0
  {
  }

  lemma {:induction false} FlushedSound(c: Cache, p: Playlist)
    requires Sound(c)
    ensures var u := Flushed(c, p);
            Sound(u) && u.limit == c.limit && u.entries.Keys <= c.entries.Keys && (p.fileType != MANIFEST ==> u == c)
  {
  }

  lemma {:induction false} AdmitSound(c: Cache, p: Playlist)
    requires Sound(c)
    ensures var (u, ready) := Admit(c, p);
            && Sound(u) && u.limit == c.limit && u.entries.Keys <= c.entries.Keys
            && (ready && c.limit != UNLIMITED ==> Owned(u.entries) + |p.bytes| <= AsSizeT(c.limit))
            && (p.fileType != MANIFEST ==> u.leaked == c.leaked)
  {
    hide Allocate, Flushed, Owned;
    var u := Flushed(c, p);
    FlushedSound(c, p);
    AllocateSound(u, p.fileType, |p.bytes|);
    OwnedNothing();
  }

  lemma {:induction false} StoreOwned(c: Cache, url: string, bytes: seq<byte>, effectiveUrl: string,
                                      fileType: MediaType)
    requires url !in c.entries
    ensures var u := Store(c, url, bytes, effectiveUrl, fileType);
            Owned(u.entries) + u.leaked == Owned(c.entries) + c.leaked + |bytes| &&
              Owned(u.entries) <= Owned(c.entries) + |bytes|
  {
    var owner, shared := Entry(bytes, effectiveUrl, fileType, false), Entry(bytes, effectiveUrl, fileType, true);
    OwnedWith(c.entries, url, owner);
    if url != effectiveUrl {
      OwnedWith(c.entries[url := owner], effectiveUrl, shared);
    }
  }

  /** The effective URL of a playlist that gets stored is the URL of another one that owns bytes. */
  ghost predicate Overwrites(c: Cache, p: Playlist) {
    var (u, ready) := Admit(c, p);
    ready && p.url != p.effectiveUrl && p.effectiveUrl in u.entries && u.entries[p.effectiveUrl].Size() > 0
  }

  /** Storing within the limit is sound, and leaks what the overwritten entry owned. */
  lemma {:induction false} StoreSound(u: Cache, p: Playlist)
    requires Sound(u) && p.url !in u.entries
    requires u.limit != UNLIMITED ==> Owned(u.entries) + |p.bytes| <= AsSizeT(u.limit)
    ensures var r := Store(u, p.url, p.bytes, p.effectiveUrl, p.fileType);
            && Sound(r) && r.limit == u.limit
            && var overwrites := p.url != p.effectiveUrl && p.effectiveUrl in u.entries;
               r.leaked == u.leaked + if overwrites then u.entries[p.effectiveUrl].Size() else 0
  {
    hide Owned, AsSizeT;
    StoreOwned(u, p.url, p.bytes, p.effectiveUrl, p.fileType);
  }

  /** For every limit, owned bytes never exceed it, and the stored size stays equal to them if and only
      if no insertion overwrites an entry that owns bytes. */
  lemma {:induction false} InsertSound(c: Cache, p: Playlist)
    requires Sound(c)
    ensures Sound(Insert(c, p)) && Insert(c, p).limit == c.limit
    ensures p.fileType != MANIFEST ==> (Insert(c, p).leaked == c.leaked <==> !Overwrites(c, p))
    ensures c.leaked == 0 ==> (Insert(c, p).stored == Owned(Insert(c, p).entries) <==> !Overwrites(c, p))
  {
    hide Admit, Owned, Store, Sound, AsSizeT;
    AdmitSound(c, p);
    AdmitUnleaked(c, p);
    var (u, ready) := Admit(c, p);
    if ready {
      StoreSound(u, p);
    }
    SoundSize(Insert(c, p));
  }

  lemma {:induction false} SoundSize(c: Cache)
    requires Sound(c)
    ensures c.stored == Owned(c.entries) <==> c.leaked == 0
  {
    hide Owned;
  }

  /** One playlist is cached under its URL, and a second one has that URL as its effective URL. */
  lemma {:induction false} OverwriteLeaks()
    ensures var c := Insert(Cache(map[], 0, UNLIMITED, 0), Playlist("v", [1, 1], "v", false, VIDEO));
            var p := Playlist("a", [2], "v", false, VIDEO);
            && Sound(c) && c.stored == 2 && Overwrites(c, p)
            && Insert(c, p).leaked == 2 && Insert(c, p).stored == 3 && Owned(Insert(c, p).entries) == 1
  {
    var video, none: Entries := Entry([1, 1], "v", VIDEO, false), map[];
    OwnedNothing();
    OwnedWith(none, "v", video);
    var c, p := Insert(Cache(none, 0, UNLIMITED, 0), Playlist("v", [1, 1], "v", false, VIDEO)),
      Playlist("a", [2], "v", false, VIDEO);
    assert c == Cache(none["v" := video], 2, UNLIMITED, 0);
    InsertSound(c, p);
    assert Insert(c, p).leaked == 2;
  }

  lemma {:induction false} AdmitUnleaked(c: Cache, p: Playlist)
    ensures c.leaked == 0 ==> Admit(c, p).0.leaked == 0
    ensures Admit(c, p).1 ==> p.url !in Admit(c, p).0.entries
  {
  }

  /** A playlist that needs room is stored exactly when what may be evicted for it is as long as it
      is. */
  lemma {:induction false} EvictsEnough(c: Cache, p: Playlist)
    requires Sound(c) && Wanted(c, p) && p.fileType != MANIFEST && c.entries != map[] && c.limit != UNLIMITED
    requires |p.bytes| < AsSizeT(c.limit) < c.stored + |p.bytes|
    ensures Admit(c, p).1 <==> Owned(c.entries) - Owned(KeptManifest(c.entries)) >= |p.bytes|
  {
    var kept := KeptOfOtherTypes(c.entries, p.fileType);
    assert KeptManifest(kept) == KeptManifest(c.entries);
    OwnedKept(kept, KeptManifest(kept));
  }

  /** So a playlist can be rejected, and the cache emptied for it, although it would fit. */
  lemma {:induction false} RejectsWhatWouldFit()
    ensures var c := Cache(map["v" := Entry([1, 1], "v", VIDEO, false)], 2, 4, 0);
            var p := Playlist("a", [2, 2, 2], "a", false, AUDIO);
            Sound(c) && Insert(c, p) == c.(entries := map[], stored := 0) && |p.bytes| < c.limit
  {
    var video := Entry([1, 1], "v", VIDEO, false);
    var none: Entries := map[];
    OwnedWith(none, "v", video);
    assert none["v" := video] == map["v" := video];
    var c := Cache(map["v" := video], 2, 4, 0);
    assert Owned(c.entries) == 2 && c.entries != map[];
    assert "v" in c.entries;
    assert KeptOfOtherTypes(c.entries, AUDIO) == c.entries && KeptManifest(c.entries) == none;
  }

  // ----- Runs ----------------------------------------------------------------------------------

  /** An insertion, or a clearing by the cleanup timer. */
  datatype Op = Inserting(playlist: Playlist) | Clearing

  ghost function Apply(c: Cache, op: Op): Cache {
    match op
    case Inserting(p) => Insert(c, p)
    case Clearing => Cleared(c)
  }

  lemma {:induction false} ApplySound(c: Cache, op: Op)
    requires Sound(c)
    ensures Sound(Apply(c, op)) && Apply(c, op).limit == c.limit
  {
    if op.Inserting? {
      InsertSound(c, op.playlist);
    }
  }

  ghost function After(limit: int32, ops: seq<Op>): (c: Cache)
    ensures Sound(c) && c.limit == limit
    decreases |ops|
  {
    if ops == [] then Cache(map[], 0, limit, 0)
    else
      var c, op := After(limit, ops[..|ops| - 1]), ops[|ops| - 1];
      ApplySound(c, op); Apply(c, op)
  }

  /** The operation stores a playlist under the given key. */
  ghost predicate Takes(c: Cache, op: Op, key: string) {
    op.Inserting? && Admit(c, op.playlist).1 && (key == op.playlist.url || key == op.playlist.effectiveUrl)
  }

  /** Operation i of a run stores a playlist under the given key. */
  ghost predicate Binds(limit: int32, ops: seq<Op>, i: nat, key: string)
    requires i < |ops|
  {
    Takes(After(limit, ops[..i]), ops[i], key)
  }

  /** Operation i is the last to have bound key, and key was neither cleared nor evicted since. */
  ghost predicate BoundLast(limit: int32, ops: seq<Op>, i: nat, key: string)
    requires i < |ops|
  {
    && Binds(limit, ops, i, key)
    && (forall j :: i < j < |ops| ==> !Binds(limit, ops, j, key))
    && (forall j :: i < j <= |ops| ==> key in After(limit, ops[..j]).entries)
  }

  lemma {:induction false} ApplyKeeps(c: Cache, op: Op, key: string)
    requires key in Apply(c, op).entries
    ensures Takes(c, op, key) ==>
              var e, p := Apply(c, op).entries[key], op.playlist;
              && e.bytes == p.bytes && e.effectiveUrl == p.effectiveUrl && e.fileType == p.fileType
              && (!p.isLive || p.fileType == MANIFEST)
    ensures !Takes(c, op, key) ==> key in c.entries && Apply(c, op).entries[key] == c.entries[key]
  {
  }

  lemma {:induction false} AfterNothing(limit: int32)
    ensures After(limit, []).entries == map[]
  {
  }

  /** One step of a run. */
  lemma {:induction false} AfterStep(limit: int32, ops: seq<Op>)
    requires ops != []
    ensures After(limit, ops) == Apply(After(limit, ops[..|ops| - 1]), ops[|ops| - 1])
  {
    hide Apply, Sound;
  }

  /** Retrieval by URL or by effective URL: what is cached under a key is what the latest uncleared
      insertion binding that key stored, and no live playlist but a main manifest is ever cached. */
  lemma {:induction false} RetrievesLatest(limit: int32, ops: seq<Op>, key: string) returns (i: nat)
    requires key in After(limit, ops).entries
    ensures i < |ops| && BoundLast(limit, ops, i, key)
    ensures var e, p := After(limit, ops).entries[key], ops[i].playlist;
            && e.bytes == p.bytes && e.effectiveUrl == p.effectiveUrl && e.fileType == p.fileType
            && (!p.isLive || p.fileType == MANIFEST)
    decreases |ops|
  {
    hide Apply, Takes, After, Sound, BoundLast;
    AfterNothing(limit);
    var n := |ops| - 1;
    var front := ops[..n];
    AfterStep(limit, ops);
    ApplyKeeps(After(limit, front), ops[n], key);
    if Binds(limit, ops, n, key) {
      i := n;
      BoundNow(limit, ops, key);
    } else {
      i := RetrievesLatest(limit, front, key);
      StaysBound(limit, ops, i, key);
    }
  }

  lemma {:induction false} BoundNow(limit: int32, ops: seq<Op>, key: string)
    requires ops != [] && Binds(limit, ops, |ops| - 1, key) && key in After(limit, ops).entries
    ensures BoundLast(limit, ops, |ops| - 1, key)
  {
    hide Binds, Apply, After, Sound;
    assert ops[..|ops|] == ops;
  }

  lemma {:induction false} StaysBound(limit: int32, ops: seq<Op>, i: nat, key: string)
    requires i < |ops| - 1 && BoundLast(limit, ops[..|ops| - 1], i, key)
    requires !Binds(limit, ops, |ops| - 1, key) && key in After(limit, ops).entries
    ensures BoundLast(limit, ops, i, key)
  {
    hide Binds, Apply, After, Sound;
    var n := |ops| - 1;
    assert ops[..|ops|] == ops;
    forall j | 0 <= j < n ensures Binds(limit, ops, j, key) == Binds(limit, ops[..n], j, key) {
      BindsFront(limit, ops, j, key);
    }
    forall j | i < j <= n ensures key in After(limit, ops[..j]).entries {
      assert ops[..j] == ops[..n][..j];
    }
  }

  lemma {:induction false} BindsFront(limit: int32, ops: seq<Op>, j: nat, key: string)
    requires j < |ops| - 1
    ensures Binds(limit, ops, j, key) == Binds(limit, ops[..|ops| - 1], j, key)
  {
    hide After, Apply, Takes, Sound;
    assert ops[..j] == ops[..|ops| - 1][..j];
  }

  // ----- What is cached ------------------------------------------------------------------------

  /** A live playlist that is no main manifest leaves the cache as it is, and so does one that is cached. */
  lemma {:induction false} LiveIsNotCached(c: Cache, p: Playlist)
    requires (p.isLive && p.fileType != MANIFEST) || p.url in c.entries
    ensures Insert(c, p) == c
  {
  }

  /** Any other one is cached under both its keys, if there is no limit or it fits into what is left of it. */
  lemma {:induction false} OthersAreCached(c: Cache, p: Playlist)
    requires Sound(c) && (!p.isLive || p.fileType == MANIFEST) && p.url !in c.entries
    requires c.limit == -1 || (c.limit > 0 && |p.bytes| < c.limit && c.stored + |p.bytes| <= c.limit)
    ensures var entries := Insert(c, p).entries;
            && p.url in entries && p.effectiveUrl in entries
            && entries[p.url].bytes == entries[p.effectiveUrl].bytes == p.bytes
            && (p.fileType != MANIFEST ==>
                  forall key :: key in c.entries && key != p.effectiveUrl ==>
                                key in entries && entries[key] == c.entries[key])
            && (p.fileType == MANIFEST ==> entries.Keys == {p.url, p.effectiveUrl})
  {
    OwnedNothing();
  }

  /** The limit in bytes; a negative one is compared as an unsigned number. */
  function Room(limit: int32): nat {
    if limit >= 0 then limit else 18446744073709551616 + limit
  }

  /** The entries of a map that are of the given type, or all others. */
  function OfType(entries: Entries, fileType: MediaType): Entries {
    map url | url in entries && entries[url].fileType == fileType :: entries[url]
  }

  function OfOthers(entries: Entries, fileType: MediaType): Entries {
    map url | url in entries && entries[url].fileType != fileType :: entries[url]
  }

  /** When exactly a playlist that is not cached yet gets cached: if it is on-demand or a main manifest, and
      there is no limit, or it is shorter than the limit and either fits into what is left of it, finds the
      cache empty or empties it, or as much as it needs is owned by entries that may be evicted. */
  lemma {:induction false} CachedIff(c: Cache, p: Playlist)
    requires Sound(c) && p.url !in c.entries
    ensures p.url in Insert(c, p).entries <==>
              && (!p.isLive || p.fileType == MANIFEST)
              && (c.limit == -1 ||
                  (|p.bytes| < Room(c.limit) &&
                   (c.entries == map[] || p.fileType == MANIFEST || c.stored + |p.bytes| <= Room(c.limit) ||
                    Owned(c.entries) - Owned(OfType(c.entries, MANIFEST)) >= |p.bytes|)))
  {
    hide Owned, Kept, Store, Allocate;
    assert Room(c.limit) == AsSizeT(c.limit);
    AdmitKeeps(c, p);
    StoresBoth(Admit(c, p).0, p);
    if Wanted(c, p) && c.limit != UNLIMITED && |p.bytes| < AsSizeT(c.limit) {
      AllocatesFor(Flushed(c, p), p.fileType, |p.bytes|);
      if p.fileType != MANIFEST && c.entries != map[] && c.stored + |p.bytes| > AsSizeT(c.limit) {
        EvictsEnough(c, p);
        assert KeptManifest(c.entries) == OfType(c.entries, MANIFEST);
      }
    }
  }

  lemma {:induction false} StoresBoth(c: Cache, p: Playlist)
    ensures p.url in Store(c, p.url, p.bytes, p.effectiveUrl, p.fileType).entries
  {
  }

  lemma {:induction false} AllocatesFor(c: Cache, fileType: MediaType, newLen: nat)
    ensures c.entries == map[] || fileType == MANIFEST ==> Allocate(c, fileType, newLen).1
  {
  }

  /** What is evicted for a playlist that needs room: the entries of its own type if they own as much as it
      needs, and everything but the main manifest otherwise. */
  lemma {:induction false} EvictsOwnTypeFirst(c: Cache, p: Playlist, key: string)
    requires Sound(c) && !p.isLive && p.fileType != MANIFEST && p.url !in c.entries && c.entries != map[]
    requires c.limit != -1 && |p.bytes| < Room(c.limit) < c.stored + |p.bytes|
    requires key in c.entries && key != p.effectiveUrl
    ensures key in Insert(c, p).entries <==>
              if Owned(c.entries) - Owned(OfOthers(c.entries, p.fileType)) >= |p.bytes|
              then c.entries[key].fileType != p.fileType else c.entries[key].fileType == MANIFEST
  {
    hide Owned;
    assert Room(c.limit) == AsSizeT(c.limit);
    assert KeptOfOtherTypes(c.entries, p.fileType) == OfOthers(c.entries, p.fileType);
  }

  // ----- The main manifest ---------------------------------------------------------------------

  /** Entries of main manifest type all hold one manifest, and at most one of them owns it. */
  ghost predicate OneManifest(entries: Entries) {
    forall j, k :: j in entries && k in entries && entries[j].fileType == MANIFEST &&
                   entries[k].fileType == MANIFEST ==>
      && entries[j].bytes == entries[k].bytes && entries[j].effectiveUrl == entries[k].effectiveUrl
      && (j != k ==> entries[j].duplicate || entries[k].duplicate)
  }

  /** Making room leaves some of the entries as they are, and none for a main manifest. */
  lemma {:induction false} AdmitKeeps(c: Cache, p: Playlist)
    ensures var u := Admit(c, p).0;
            forall url :: url in u.entries ==> url in c.entries && u.entries[url] == c.entries[url]
    ensures p.fileType == MANIFEST && Admit(c, p).1 ==> Admit(c, p).0.entries == map[]
  {
    hide Owned, AsSizeT;
  }

  lemma {:induction false} StoreOneManifest(c: Cache, p: Playlist)
    requires OneManifest(c.entries) && (p.fileType == MANIFEST ==> c.entries == map[])
    ensures OneManifest(Store(c, p.url, p.bytes, p.effectiveUrl, p.fileType).entries)
  {
  }

  lemma {:induction false} FewerOneManifest(entries: Entries, kept: Entries)
    requires OneManifest(entries) && forall url :: url in kept ==> url in entries && kept[url] == entries[url]
    ensures OneManifest(kept)
  {
  }

  lemma {:induction false} InsertOneManifest(c: Cache, p: Playlist)
    requires OneManifest(c.entries)
    ensures OneManifest(Insert(c, p).entries)
  {
    hide Admit, Store, OneManifest;
    AdmitKeeps(c, p);
    var u := Admit(c, p).0;
    FewerOneManifest(c.entries, u.entries);
    if Admit(c, p).1 {
      StoreOneManifest(u, p);
    }
  }

  lemma {:induction false} NoManifest()
    ensures OneManifest(map[])
  {
  }

  lemma {:induction false} ApplyOneManifest(c: Cache, op: Op)
    requires OneManifest(c.entries)
    ensures OneManifest(Apply(c, op).entries)
  {
    hide Insert, OneManifest;
    NoManifest();
    if op.Inserting? {
      InsertOneManifest(c, op.playlist);
    }
  }

  lemma {:induction false} AfterOneManifest(limit: int32, ops: seq<Op>)
    ensures OneManifest(After(limit, ops).entries)
    decreases |ops|
  {
    hide After, Apply, Sound, OneManifest;
    if ops == [] {
      AfterNothing(limit);
      NoManifest();
    } else {
      AfterOneManifest(limit, ops[..|ops| - 1]);
      AfterStep(limit, ops);
      ApplyOneManifest(After(limit, ops[..|ops| - 1]), ops[|ops| - 1]);
    }
  }

  /** No playlist evicts the main manifest: its entries all survive, except one whose key is the
      effective URL of a playlist that gets stored. */
  lemma {:induction false} ManifestSurvives(c: Cache, p: Playlist, url: string)
    requires p.fileType != MANIFEST && url in c.entries && c.entries[url].fileType == MANIFEST
    ensures url in Insert(c, p).entries
    ensures Insert(c, p).entries[url] == c.entries[url] <==> !(Admit(c, p).1 && url == p.effectiveUrl)
  {
  }
}
