/** AampCacheHandler itself: entries that share heap buffers, which are freed by hand. */
module CacheHandler {
  import opened Common
  import opened PlaylistCache

  class GrowableBuffer {
    var ptr: seq<byte>
    ghost var freed: bool

    constructor ()
      ensures ptr == [] && !freed
    {
      ptr, freed := [], false;
    }

    /** aamp_AppendBytes */
    method AppendBytes(bytes: seq<byte>)
      requires !freed
      modifies this`ptr
      ensures ptr == old(ptr) + bytes
    {
      ptr := ptr + bytes;
    }

    /** aamp_Free and delete: a buffer is freed once, and its contents are gone. */
    method Free()
      requires !freed
      modifies this
      ensures freed && ptr == []
    {
      ptr, freed := [], true;
    }
  }

  datatype PlayListCachedData = PlayListCachedData(mEffectiveUrl: string, mCachedBuffer: GrowableBuffer,
                                                   mFileType: MediaType, mDuplicateEntry: bool)

  /** The entries of the given keys. */
  ghost function Restrict(entries: Entries, keys: set<string>): Entries {
    map url | url in entries && url in keys :: entries[url]
  }

  class AampCacheHandler {
    var mPlaylistCache: map<string, PlayListCachedData>
    var mCacheStoredSize: int
    var mMaxPlaylistCacheSize: int32
    ghost var leaked: nat

    ghost function Buffers(): set<GrowableBuffer>
      reads this`mPlaylistCache
    {
      BuffersOf(mPlaylistCache)
    }

    static ghost function BuffersOf(cache: map<string, PlayListCachedData>): set<GrowableBuffer> {
      set url | url in cache :: cache[url].mCachedBuffer
    }

    /** Every entry's buffer is live. Entries that share a buffer have one file type and at most one of
        them owns it. All main manifest entries share one buffer. */
    ghost predicate Valid()
      reads this`mPlaylistCache, Buffers()
    {
      Live(mPlaylistCache) && Shared(mPlaylistCache)
    }

    static ghost predicate Live(cache: map<string, PlayListCachedData>)
      reads BuffersOf(cache)
    {
      forall url :: url in cache ==> !cache[url].mCachedBuffer.freed
    }

    static ghost predicate Shared(cache: map<string, PlayListCachedData>) {
      && (forall j, k :: j in cache && k in cache && j != k && cache[j].mCachedBuffer == cache[k].mCachedBuffer ==>
            cache[j].mFileType == cache[k].mFileType && (cache[j].mDuplicateEntry || cache[k].mDuplicateEntry))
      && (forall j, k :: j in cache && k in cache && cache[j].mFileType == MANIFEST &&
                         cache[k].mFileType == MANIFEST ==>
            cache[j].mCachedBuffer == cache[k].mCachedBuffer)
    }

    ghost function Contents(): Entries
      reads this`mPlaylistCache, Buffers()
    {
      ContentsOf(mPlaylistCache)
    }

    static ghost function ContentsOf(cache: map<string, PlayListCachedData>): Entries
      reads BuffersOf(cache)
    {
      map url | url in cache :: EntryOf(cache[url])
    }

    static lemma {:induction false} CacheWith(cache: map<string, PlayListCachedData>, url: string,
                                              d: PlayListCachedData)
      ensures ContentsOf(cache[url := d]) == ContentsOf(cache)[url := EntryOf(d)]
      ensures BuffersOf(cache[url := d]) <= BuffersOf(cache) + {d.mCachedBuffer}
      ensures Live(cache) && !d.mCachedBuffer.freed ==> Live(cache[url := d])
    {
    }

    static ghost function EntryOf(d: PlayListCachedData): Entry
      reads d.mCachedBuffer
    {
      Entry(d.mCachedBuffer.ptr, d.mEffectiveUrl, d.mFileType, d.mDuplicateEntry)
    }

    ghost function State(): Cache
      reads this, Buffers()
    {
      Cache(Contents(), mCacheStoredSize, mMaxPlaylistCacheSize, leaked)
    }

    constructor ()
      ensures Valid() && mPlaylistCache == map[] && State() == Cache(map[], 0, 3 * 1024 * 1024, 0)
    {
      mPlaylistCache, mCacheStoredSize, mMaxPlaylistCacheSize, leaked := map[], 0, 3 * 1024 * 1024, 0;
    }

    method SetMaxPlaylistCacheSize(maxPlaylistCacheSz: int32)
      modifies this`mMaxPlaylistCacheSize
      ensures mMaxPlaylistCacheSize == maxPlaylistCacheSz
    {
      mMaxPlaylistCacheSize := maxPlaylistCacheSz;
    }

    method IsUrlCached(url: string) returns (retval: bool)
      ensures retval <==> url in Contents()
    {
      retval := url in mPlaylistCache;
    }

    /** The cached bytes are copied into the caller's buffer. */
    method RetrieveFromPlaylistCache(url: string, buffer: GrowableBuffer, effectiveUrl0: string)
      returns (ret: bool, effectiveUrl: string)
      requires Valid() && !buffer.freed && buffer !in Buffers()
      modifies buffer`ptr
      ensures ret <==> url in Contents()
      ensures ret ==> buffer.ptr == Contents()[url].bytes && effectiveUrl == Contents()[url].effectiveUrl
      ensures !ret ==> buffer.ptr == old(buffer.ptr) && effectiveUrl == effectiveUrl0
      ensures Valid() && State() == old(State())
    {
      ret, effectiveUrl := false, effectiveUrl0;
      if url in mPlaylistCache {
        var tmpData := mPlaylistCache[url];
        buffer.ptr := [];
        buffer.AppendBytes(tmpData.mCachedBuffer.ptr);
        effectiveUrl := tmpData.mEffectiveUrl;
        ret := true;
      }
    }

    /** An entry leaves the cache; the owner of a buffer frees it. */
    method Erase(url: string) returns (size: nat)
      requires url in mPlaylistCache && (!mPlaylistCache[url].mDuplicateEntry ==>
                                         !mPlaylistCache[url].mCachedBuffer.freed)
      modifies this`mPlaylistCache, mPlaylistCache[url].mCachedBuffer
      ensures mPlaylistCache == old(mPlaylistCache) - {url}
      ensures size == if old(mPlaylistCache[url].mDuplicateEntry) then 0
                else |old(mPlaylistCache[url].mCachedBuffer.ptr)|
      ensures old(mPlaylistCache[url].mDuplicateEntry) ==> unchanged(old(mPlaylistCache[url].mCachedBuffer))
    {
      var tmpData := mPlaylistCache[url];
      size := 0;
      if !tmpData.mDuplicateEntry {
        size := |tmpData.mCachedBuffer.ptr|;
        tmpData.mCachedBuffer.Free();
      }
      mPlaylistCache := mPlaylistCache - {url};
    }

    /** What a pass leaves in the cache: main manifests, and in the first pass the other types. */
    static predicate Stays(d: PlayListCachedData, firstPass: bool, fileType: MediaType) {
      d.mFileType == MANIFEST || (firstPass && d.mFileType != fileType)
    }

    /** In the middle of a pass over the given cache, whose contents were the given entries: what was
        visited and does not stay is erased; the entries that stay and the owners still to be visited
        have live buffers, while a duplicate still to be erased may have lost its buffer. */
    ghost predicate MidPass(entries: Entries, cache: map<string, PlayListCachedData>, rest: set<string>,
                            firstPass: bool, fileType: MediaType)
      reads this, BuffersOf(cache)
    {
      && rest <= mPlaylistCache.Keys <= cache.Keys == entries.Keys
      && (forall url :: url in mPlaylistCache ==> mPlaylistCache[url] == cache[url])
      && (forall url :: url in cache ==> (url in mPlaylistCache <==>
                                          Stays(cache[url], firstPass, fileType) || url in rest))
      && (forall url :: url in cache ==>
            entries[url] == Entry(entries[url].bytes, cache[url].mEffectiveUrl, cache[url].mFileType,
                                  cache[url].mDuplicateEntry))
      && forall url :: url in mPlaylistCache && (Stays(cache[url], firstPass, fileType) ||
                                                 !cache[url].mDuplicateEntry) ==>
           !cache[url].mCachedBuffer.freed && cache[url].mCachedBuffer.ptr == entries[url].bytes
    }

    /** One iteration of a pass. */
    method Visit(ghost entries: Entries, ghost cache: map<string, PlayListCachedData>, ghost rest: set<string>,
                 url: string,
                 firstPass: bool, fileType: MediaType) returns (size: nat)
      requires MidPass(entries, cache, rest, firstPass, fileType) && Shared(cache) && url in rest
      modifies this`mPlaylistCache, mPlaylistCache[url].mCachedBuffer
      ensures MidPass(entries, cache, rest - {url}, firstPass, fileType)
      ensures mPlaylistCache.Keys <= old(mPlaylistCache).Keys
      ensures size == if url in mPlaylistCache then 0 else entries[url].Size()
      ensures mPlaylistCache == if Stays(cache[url], firstPass, fileType) then old(mPlaylistCache)
                else old(mPlaylistCache) - {url}
    {
      size := 0;
      if !Stays(mPlaylistCache[url], firstPass, fileType) {
        size := Erase(url);
      }
    }

    /** One pass over the entries, in any order. */
    method EvictionPass(firstPass: bool, fileType: MediaType) returns (freedSize: nat)
      requires Valid()
      modifies this`mPlaylistCache, Buffers()
      ensures Valid() && Buffers() <= old(Buffers())
      ensures Contents() == Staying(old(Contents()), firstPass, fileType)
      ensures freedSize == Owned(old(Contents())) - Owned(Contents())
    {
      hide Owned, MidPass, Shared, Live, Restrict, Staying, ContentsOf;
      ghost var entries, cache := Contents(), mPlaylistCache;
      var rest := mPlaylistCache.Keys;
      freedSize := 0;
      PassBegins(firstPass, fileType);
      while rest != {}
        invariant MidPass(entries, cache, rest, firstPass, fileType) && mPlaylistCache.Keys <= cache.Keys
        invariant freedSize == Owned(entries) - Owned(Restrict(entries, mPlaylistCache.Keys))
        decreases |rest|
      {
        var url :| url in rest;
        InMiddle(entries, cache, rest, url, firstPass, fileType);
        Without(entries, mPlaylistCache.Keys, url);
        var size := Visit(entries, cache, rest, url, firstPass, fileType);
        freedSize := freedSize + size;
        rest := rest - {url};
      }
      PassDone(entries, cache, firstPass, fileType);
    }

    lemma {:induction false} PassBegins(firstPass: bool, fileType: MediaType)
      requires Valid()
      ensures MidPass(Contents(), mPlaylistCache, mPlaylistCache.Keys, firstPass, fileType)
      ensures Restrict(Contents(), mPlaylistCache.Keys) == Contents() && Shared(mPlaylistCache)
    {
    }

    lemma {:induction false} InMiddle(entries: Entries, cache: map<string, PlayListCachedData>, rest: set<string>,
                                      url: string,
                                      firstPass: bool, fileType: MediaType)
      requires MidPass(entries, cache, rest, firstPass, fileType) && url in rest
      ensures url in mPlaylistCache && url in entries && url in cache && mPlaylistCache[url] == cache[url]
    {
    }

    lemma {:induction false} PassDone(entries: Entries, cache: map<string, PlayListCachedData>, firstPass: bool,
                                      fileType: MediaType)
      requires MidPass(entries, cache, {}, firstPass, fileType) && Shared(cache)
      ensures Valid() && Contents() == Staying(entries, firstPass, fileType) == Restrict(entries, mPlaylistCache.Keys)
      ensures forall url :: url in mPlaylistCache ==> url in cache && mPlaylistCache[url] == cache[url]
    {
      var contents := Contents();
      forall url | url in mPlaylistCache
        ensures url in entries && contents[url] == entries[url] && !mPlaylistCache[url].mCachedBuffer.freed
      {
        assert Stays(cache[url], firstPass, fileType);
      }
      assert Restrict(entries, mPlaylistCache.Keys) == contents;
      StayingIs(entries, cache, mPlaylistCache.Keys, firstPass, fileType);
    }

    static lemma {:induction false} StayingIs(entries: Entries, cache: map<string, PlayListCachedData>,
                                              keys: set<string>, firstPass: bool, fileType: MediaType)
      requires keys <= cache.Keys == entries.Keys
      requires forall url :: url in cache ==> entries[url].fileType == cache[url].mFileType
      requires forall url :: url in cache ==> (url in keys <==> Stays(cache[url], firstPass, fileType))
      ensures Restrict(entries, keys) == Staying(entries, firstPass, fileType)
    {
    }

    static lemma {:induction false} Without(entries: Entries, keys: set<string>, url: string)
      requires url in keys && url in entries
      ensures Owned(Restrict(entries, keys)) == entries[url].Size() + Owned(Restrict(entries, keys - {url}))
    {
      OwnedWithout(Restrict(entries, keys), url);
      assert Restrict(entries, keys) - {url} == Restrict(entries, keys - {url});
    }

    static ghost function Staying(entries: Entries, firstPass: bool, fileType: MediaType): Entries {
      if firstPass then KeptOfOtherTypes(entries, fileType) else KeptManifest(entries)
    }

    /** Frees every owned buffer once and forgets all entries. */
    method ClearPlaylistCache()
      requires Valid()
      modifies this`mPlaylistCache, this`mCacheStoredSize, this`leaked, Buffers()
      ensures Valid() && mPlaylistCache == map[] && Buffers() == {} && State() == Cleared(old(State()))
    {
      var rest := mPlaylistCache.Keys;
      while rest != {}
        invariant mPlaylistCache == old(mPlaylistCache) && rest <= mPlaylistCache.Keys
        invariant forall url :: url in rest && !mPlaylistCache[url].mDuplicateEntry ==>
                                !mPlaylistCache[url].mCachedBuffer.freed
        decreases |rest|
      {
        var url :| url in rest;
        var tmpData := mPlaylistCache[url];
        if !tmpData.mDuplicateEntry {
          tmpData.mCachedBuffer.Free();
        }
        rest := rest - {url};
      }
      mCacheStoredSize, mPlaylistCache, leaked := 0, map[], 0;
    }

    lemma {:induction false} EmptyTogether()
      ensures mPlaylistCache == map[] <==> Contents() == map[]
      ensures |mPlaylistCache| > 0 <==> Contents() != map[]
    {
      assert forall url :: url in mPlaylistCache <==> url in Contents();
    }

    /** Makes room for newLen bytes: playlists of the same type go first, then, if that is not enough,
        all others except the main manifest. */
    method AllocatePlaylistCacheSlot(fileType: MediaType, newLen: nat) returns (retVal: bool)
      requires Valid()
      modifies this`mPlaylistCache, this`mCacheStoredSize, this`leaked, Buffers()
      ensures Valid() && Buffers() <= old(Buffers()) && (State(), retVal) == Allocate(old(State()), fileType, newLen)
    {
      retVal := true;
      hide Owned, Shared;
      EmptyTogether();
      ghost var entries := Contents();
      hide Contents, Valid, Buffers, KeptOfOtherTypes, KeptManifest;
      if mPlaylistCache != map[] {
        if fileType == MANIFEST {
          ClearPlaylistCache();
        } else {
          var freedSize := EvictionPass(true, fileType);
          if freedSize < newLen {
            var more := EvictionPass(false, fileType);
            freedSize := freedSize + more;
          }
          assert Contents() == Kept(entries, fileType, newLen) && freedSize == Owned(entries) - Owned(Contents());
          mCacheStoredSize := mCacheStoredSize - freedSize;
          if freedSize < newLen {
            retVal := false;
          }
        }
      }
    }

    /** The new playlist's bytes are stored once, under its URL and its effective URL. */
    method StorePlaylist(url: string, buffer: GrowableBuffer, effectiveUrl: string, fileType: MediaType)
      requires Valid() && !buffer.freed && buffer !in Buffers() && url !in mPlaylistCache
      requires fileType == MANIFEST ==> mPlaylistCache == map[]
      modifies this`mPlaylistCache, this`mCacheStoredSize, this`leaked
      ensures Valid() && fresh(Buffers() - old(Buffers())) && buffer !in Buffers()
      ensures State() == Store(old(State()), url, buffer.ptr, effectiveUrl, fileType)
    {
      hide ContentsOf, Shared, Valid, Buffers, Owned;
      var tmpData := StoreOwner(url, buffer, effectiveUrl, fileType);
      if url != effectiveUrl {
        ShareBuffer(url, tmpData);
      }
    }

    static method Copy(bytes: seq<byte>) returns (buffer: GrowableBuffer)
      ensures fresh(buffer) && !buffer.freed && buffer.ptr == bytes
    {
      buffer := new GrowableBuffer();
      buffer.AppendBytes(bytes);
      assert buffer.ptr == bytes;
    }

    /** The entry that owns the new buffer. */
    method StoreOwner(url: string, buffer: GrowableBuffer, effectiveUrl: string, fileType: MediaType)
      returns (tmpData: PlayListCachedData)
      requires Valid() && !buffer.freed && buffer !in Buffers() && url !in mPlaylistCache
      requires fileType == MANIFEST ==> mPlaylistCache == map[]
      modifies this`mPlaylistCache, this`mCacheStoredSize
      ensures Valid() && fresh(tmpData.mCachedBuffer) && Buffers() <= old(Buffers()) + {tmpData.mCachedBuffer}
      ensures url in mPlaylistCache && mPlaylistCache[url] == tmpData
      ensures tmpData == PlayListCachedData(effectiveUrl, tmpData.mCachedBuffer, fileType, false)
      ensures Contents() == old(Contents())[url := Entry(buffer.ptr, effectiveUrl, fileType, false)]
      ensures mCacheStoredSize == old(mCacheStoredSize) + |buffer.ptr|
    {
      ghost var entries, cache := Contents(), mPlaylistCache;
      var cachedBuffer := Copy(buffer.ptr);
      assert ContentsOf(cache) == entries;
      tmpData := PlayListCachedData(effectiveUrl, cachedBuffer, fileType, false);
      hide Shared, ContentsOf, BuffersOf, Live;
      CacheWith(cache, url, tmpData);
      SharedOnce(cache, url, tmpData);
      mPlaylistCache := mPlaylistCache[url := tmpData];
      mCacheStoredSize := mCacheStoredSize + |buffer.ptr|;
    }

    /** The entry just stored under url is shared by its effective URL. */
    method ShareBuffer(url: string, tmpData: PlayListCachedData)
      requires Valid() && url in mPlaylistCache && mPlaylistCache[url] == tmpData && !tmpData.mDuplicateEntry &&
                 url != tmpData.mEffectiveUrl
      modifies this`mPlaylistCache, this`leaked
      ensures Valid() && Buffers() <= old(Buffers())
      ensures Contents() == old(Contents())[tmpData.mEffectiveUrl := old(Contents())[url].(duplicate := true)]
      ensures var entries, url' := old(Contents()), tmpData.mEffectiveUrl;
              leaked == old(leaked) + if url' in entries then entries[url'].Size() else 0
    {
      var effectiveUrl := tmpData.mEffectiveUrl;
      hide Shared, ContentsOf, BuffersOf, Live;
      EntryAt(mPlaylistCache, effectiveUrl);
      EntryAt(mPlaylistCache, url);
      SharedTwice(mPlaylistCache, url);
      if effectiveUrl in mPlaylistCache && !mPlaylistCache[effectiveUrl].mDuplicateEntry {
        leaked := leaked + |mPlaylistCache[effectiveUrl].mCachedBuffer.ptr|;
      }
      var newtmpData := PlayListCachedData(effectiveUrl, tmpData.mCachedBuffer, tmpData.mFileType, true);
      CacheWith(mPlaylistCache, effectiveUrl, newtmpData);
      mPlaylistCache := mPlaylistCache[effectiveUrl := newtmpData];
    }

    static lemma {:induction false} EntryAt(cache: map<string, PlayListCachedData>, url: string)
      ensures url in ContentsOf(cache) <==> url in cache
      ensures url in cache ==>
                ContentsOf(cache)[url] == EntryOf(cache[url]) && cache[url].mCachedBuffer in BuffersOf(cache)
      ensures url in cache && Live(cache) ==> !cache[url].mCachedBuffer.freed
    {
    }

    static lemma {:induction false} SharedOnce(cache: map<string, PlayListCachedData>, url: string,
                                               d: PlayListCachedData)
      requires Shared(cache) && url !in cache && (d.mFileType == MANIFEST ==> cache == map[])
      requires d.mCachedBuffer !in BuffersOf(cache)
      ensures Shared(cache[url := d])
    {
    }

    static lemma {:induction false} SharedTwice(cache: map<string, PlayListCachedData>, url: string)
      requires Shared(cache) && url in cache
      ensures url != cache[url].mEffectiveUrl ==>
                Shared(cache[cache[url].mEffectiveUrl := cache[url].(mDuplicateEntry := true)])
    {
    }

    /** Decides whether a wanted playlist is cached, flushing and evicting what is in its way. */
    method MakeRoom(url: string, newLen: nat, fileType: MediaType, ghost p: Playlist) returns (cacheStoreReady: bool)
      requires Valid() && p.url == url && |p.bytes| == newLen && p.fileType == fileType && Wanted(State(), p)
      modifies this`mPlaylistCache, this`mCacheStoredSize, this`leaked, Buffers()
      ensures Valid() && Buffers() <= old(Buffers()) && (State(), cacheStoreReady) == Admit(old(State()), p)
      ensures cacheStoreReady && fileType == MANIFEST ==> mPlaylistCache == map[]
    {
      hide Allocate, Owned, Shared, Valid, Contents, Buffers;
      ghost var c := State();
      AdmitKeeps(c, p);
      EmptyTogether();
      cacheStoreReady := false;
      if fileType == MANIFEST && |mPlaylistCache| > 0 {
        ClearPlaylistCache();
      }
      if mMaxPlaylistCacheSize == UNLIMITED || newLen < AsSizeT(mMaxPlaylistCacheSize) {
        cacheStoreReady := true;
        if mMaxPlaylistCacheSize != UNLIMITED && mCacheStoredSize + newLen > AsSizeT(mMaxPlaylistCacheSize) {
          cacheStoreReady := AllocatePlaylistCacheSlot(fileType, newLen);
        }
      }
      EmptyTogether();
    }

    method InsertToPlaylistCache(url: string, buffer: GrowableBuffer, effectiveUrl: string, trackLiveStatus: bool,
                                 fileType: MediaType)
      requires Valid() && !buffer.freed && buffer !in Buffers()
      modifies this`mPlaylistCache, this`mCacheStoredSize, this`leaked, Buffers()
      ensures Valid() && fresh(Buffers() - old(Buffers())) && buffer !in Buffers() && buffer.ptr == old(buffer.ptr)
      ensures State() == Insert(old(State()), Playlist(url, buffer.ptr, effectiveUrl, trackLiveStatus, fileType))
    {
      ghost var c, p := State(), Playlist(url, buffer.ptr, effectiveUrl, trackLiveStatus, fileType);
      AdmitUnleaked(c, p);
      if (!trackLiveStatus || fileType == MANIFEST) && url !in mPlaylistCache {
        var cacheStoreReady := MakeRoom(url, |buffer.ptr|, fileType, p);
        hide Admit, Store, Shared;
        if cacheStoreReady {
          assert url !in Contents();
          StorePlaylist(url, buffer, effectiveUrl, fileType);
        }
      }
    }
  }
}
