/**
 * The audio-session manager (`AudioProvider`) as a state machine over values:
 * each transport operation is one atomic step from a `State` to a `State`.
 * `handles` lists the state of every handle the provider has created, in
 * creation order, and `sound` is the index of the one the provider holds.
 */
module Session {
  import opened Wrappers
  import opened Audio

  /** A track; its identity is its `uri`. */
  datatype Song = Song(title: string, uri: string)

  datatype State = State(
    currentSong: Option<Song>,
    isPlaying: bool,
    queue: seq<Song>,
    playlist: seq<Song>,
    history: seq<Song>,
    handles: seq<HandleState>,
    sound: Option<nat>)

  /** The provider's state when it mounts. */
  function Initial(): (s: State)
    ensures Inv(s) && s.handles == [] && s.sound.None? && !s.isPlaying
    ensures s.currentSong.None? && s.playlist == [] && s.history == []
  {
    State(None, false, [], [], [], [], None)
  }

  /**
   * Invariant of every reachable state: the held handle is loaded, no other
   * handle is, and `queue` is never written.
   */
  ghost predicate Inv(s: State)
  {
    && s.queue == []
    && Coherent(s.handles)
    && OnlyLoaded(s.handles, s.sound)
    && (s.sound.Some? ==> s.sound.value < |s.handles| && s.handles[s.sound.value].loaded)
  }

  /** `isPlaying` tells the truth about the held handle. */
  ghost predicate Synced(s: State)
    requires Inv(s)
  {
    s.isPlaying == (s.sound.Some? && s.handles[s.sound.value].playing)
  }

  /** Every entry's uri differs from every other's. */
  ghost predicate UniqueUris(list: seq<Song>)
  {
    forall i, j :: 0 <= i < j < |list| ==> list[i].uri != list[j].uri
  }

  /** `Array.prototype.findIndex` by uri: the first match, or -1. */
  function FindIndex(list: seq<Song>, uri: string): (i: int)
    ensures -1 <= i < |list|
    ensures i >= 0 ==> list[i].uri == uri
    ensures forall j :: 0 <= j < |list| && (i < 0 || j < i) ==> list[j].uri != uri
  {
    if list == [] then -1
    else if list[0].uri == uri then 0
    else
      var k := FindIndex(list[1..], uri);
      if k < 0 then -1 else k + 1
  }

  /** The idempotence guard of `play`: the same uri is already playing. */
  predicate AlreadyPlaying(s: State, song: Song)
  {
    s.currentSong.Some? && s.currentSong.value.uri == song.uri && s.isPlaying
  }

  /** `unload`: release the held handle, if any, and forget it. */
  function Unload(s: State): (r: State)
    requires Inv(s)
    ensures Inv(r) && r.sound.None?
    ensures forall i :: 0 <= i < |r.handles| ==> !r.handles[i].loaded
    ensures |r.handles| == |s.handles|
    ensures forall i :: 0 <= i < |s.handles| && s.sound != Some(i) ==> r.handles[i] == s.handles[i]
    ensures r.currentSong == s.currentSong && r.isPlaying == s.isPlaying && r.queue == s.queue
    ensures r.playlist == s.playlist && r.history == s.history
  {
    match s.sound
    case None => s
    case Some(k) => s.(handles := s.handles[k := Unloaded(s.handles[k])], sound := None)
  }

  /**
   * `play(song, fullPlaylist)`. `createOk` is false when `createAsync` rejects:
   * the code has no handler, so the step stops right after the unload.
   */
  function Play(s: State, song: Song, fullPlaylist: Option<seq<Song>>, createOk: bool): (r: State)
    requires Inv(s)
    ensures Inv(r) && r.queue == s.queue && |r.handles| >= |s.handles|
    ensures AlreadyPlaying(s, song) ==> r == s
    // every handle that existed before the call is released before the new one is made
    ensures !AlreadyPlaying(s, song) ==> forall i :: 0 <= i < |s.handles| ==> !r.handles[i].loaded
    ensures !AlreadyPlaying(s, song) && createOk ==>
      && |r.handles| == |s.handles| + 1
      && r.sound == Some(|s.handles|)
      && r.handles[|s.handles|] == HandleState(Uri(song.uri), true, true)
      && r.currentSong == Some(song)
      && r.isPlaying
      && Synced(r)
    ensures !AlreadyPlaying(s, song) && !createOk ==>
      && r.sound.None? && |r.handles| == |s.handles|
      && r.currentSong == s.currentSong && r.isPlaying == s.isPlaying
    ensures r.playlist ==
      if !AlreadyPlaying(s, song) && createOk && fullPlaylist.Some? then fullPlaylist.value else s.playlist
    ensures r.history ==
      if !AlreadyPlaying(s, song) && createOk && s.currentSong.Some? then s.history + [s.currentSong.value]
      else s.history
  {
    if AlreadyPlaying(s, song) then s
    else
      var u := Unload(s);
      if !createOk then u else Start(u, song, fullPlaylist)
  }

  /**
   * The second half of `play`, once nothing is held: create a handle for the
   * song's uri, hold it, play it, and record the song that was current.
   */
  function Start(u: State, song: Song, fullPlaylist: Option<seq<Song>>): (r: State)
    requires Inv(u) && u.sound.None?
    ensures Inv(r) && Synced(r) && r.queue == u.queue
    ensures r.handles == u.handles + [HandleState(Uri(song.uri), true, true)]
    ensures r.sound == Some(|u.handles|) && r.currentSong == Some(song) && r.isPlaying
    ensures r.playlist == if fullPlaylist.Some? then fullPlaylist.value else u.playlist
    ensures r.history == if u.currentSong.Some? then u.history + [u.currentSong.value] else u.history
  {
    u.(handles := u.handles + [Played(Created(Uri(song.uri)))],
       sound := Some(|u.handles|),
       currentSong := Some(song),
       isPlaying := true,
       playlist := if fullPlaylist.Some? then fullPlaylist.value else u.playlist,
       history := if u.currentSong.Some? then u.history + [u.currentSong.value] else u.history)
  }

  /** Holding a freshly created, playing handle when none was held keeps the invariant. */
  lemma AcquireKeepsInv(s: State, src: Source)
    requires Inv(s) && s.sound.None?
    ensures Inv(s.(handles := s.handles + [Played(Created(src))], sound := Some(|s.handles|)))
  {
  }

  /** `pause`: only when a handle is held. */
  function Pause(s: State): (r: State)
    requires Inv(s)
    ensures Inv(r)
    ensures s.sound.None? ==> r == s
    ensures s.sound.Some? ==>
      && r.sound == s.sound && !r.isPlaying && Synced(r)
      && r.handles == s.handles[s.sound.value := Paused(s.handles[s.sound.value])]
    ensures r.currentSong == s.currentSong && r.playlist == s.playlist && r.queue == s.queue
    ensures r.history == s.history
  {
    match s.sound
    case None => s
    case Some(k) => s.(handles := s.handles[k := Paused(s.handles[k])], isPlaying := false)
  }

  /** `setPlaylist`: replace the navigation context and nothing else. */
  function SetPlaylist(s: State, list: seq<Song>): (r: State)
    requires Inv(s)
    ensures Inv(r) && r.playlist == list
    ensures Synced(s) ==> Synced(r)
    ensures r.(playlist := s.playlist) == s
  {
    s.(playlist := list)
  }

  /** The raw `setCurrentSong` setter the context exposes. */
  function SetCurrentSong(s: State, song: Song): (r: State)
    requires Inv(s)
    ensures Inv(r) && r.currentSong == Some(song)
    ensures r.(currentSong := s.currentSong) == s
  {
    s.(currentSong := Some(song))
  }

  /** The raw `setIsPlaying` setter the context exposes; it touches no handle. */
  function SetIsPlaying(s: State, p: bool): (r: State)
    requires Inv(s)
    ensures Inv(r) && r.isPlaying == p && r.handles == s.handles
    ensures r.(isPlaying := s.isPlaying) == s
  {
    s.(isPlaying := p)
  }

  /** Where `playNext` would move: the entry after the first uri match, if there is one. */
  function NextIndex(s: State): (r: Option<nat>)
    ensures r.Some? ==>
      && s.currentSong.Some? && 0 < r.value < |s.playlist|
      && s.playlist[r.value - 1].uri == s.currentSong.value.uri
      && forall j :: 0 <= j < r.value - 1 ==> s.playlist[j].uri != s.currentSong.value.uri
    ensures r.None? && s.currentSong.Some? ==>
      forall j :: 0 <= j < |s.playlist| - 1 ==> s.playlist[j].uri != s.currentSong.value.uri
  {
    if s.currentSong.None? || |s.playlist| == 0 then None
    else
      var index := FindIndex(s.playlist, s.currentSong.value.uri);
      if index >= 0 && index < |s.playlist| - 1 then Some(index + 1) else None
  }

  /** Where `playPrevious` would move: the entry before the first uri match, if there is one. */
  function PreviousIndex(s: State): (r: Option<nat>)
    ensures r.Some? ==>
      && s.currentSong.Some? && r.value + 1 < |s.playlist|
      && s.playlist[r.value + 1].uri == s.currentSong.value.uri
      && forall j :: 0 <= j <= r.value ==> s.playlist[j].uri != s.currentSong.value.uri
    ensures r.None? && s.currentSong.Some? && |s.playlist| > 0 ==>
      s.playlist[0].uri == s.currentSong.value.uri
      || forall j :: 0 <= j < |s.playlist| ==> s.playlist[j].uri != s.currentSong.value.uri
  {
    if s.currentSong.None? || |s.playlist| == 0 then None
    else
      var index := FindIndex(s.playlist, s.currentSong.value.uri);
      if index > 0 then Some(index - 1) else None
  }

  /** `playNext`: play the following entry, keeping the playlist; a dead stop at the end. */
  function PlayNext(s: State, createOk: bool): (r: State)
    requires Inv(s)
    ensures Inv(r) && r.playlist == s.playlist
    ensures NextIndex(s).None? ==> r == s
    ensures NextIndex(s).Some? ==> r == Play(s, s.playlist[NextIndex(s).value], None, createOk)
  {
    match NextIndex(s)
    case None => s
    case Some(i) => Play(s, s.playlist[i], None, createOk)
  }

  /** `playPrevious`: play the preceding entry, keeping the playlist; no wrap-around. */
  function PlayPrevious(s: State, createOk: bool): (r: State)
    requires Inv(s)
    ensures Inv(r) && r.playlist == s.playlist
    ensures PreviousIndex(s).None? ==> r == s
    ensures PreviousIndex(s).Some? ==> r == Play(s, s.playlist[PreviousIndex(s).value], None, createOk)
  {
    match PreviousIndex(s)
    case None => s
    case Some(i) => Play(s, s.playlist[i], None, createOk)
  }

  // ---------------------------------------------------------------------
  // Properties of the session manager
  // ---------------------------------------------------------------------

  /** In every reachable state at most one handle is live, and it is the held one. */
  lemma AtMostOneLive(s: State)
    requires Inv(s)
    ensures CountLoaded(s.handles) <= 1
    ensures CountLoaded(s.handles) == 1 <==> s.sound.Some?
  {
    OnlyLoadedCount(s.handles, s.sound);
  }

  /** After `unload` no handle is live. */
  lemma UnloadLeavesNoneLive(s: State)
    requires Inv(s)
    ensures CountLoaded(Unload(s).handles) == 0
  {
    AtMostOneLive(Unload(s));
  }

  /** Playing the same song twice in a row creates one handle: the second call is a no-op. */
  lemma PlayTwiceAcquiresOnce(s: State, song: Song, first: Option<seq<Song>>, second: Option<seq<Song>>, createOk: bool)
    requires Inv(s)
    ensures Play(Play(s, song, first, true), song, second, createOk) == Play(s, song, first, true)
    ensures |Play(s, song, first, true).handles| <= |s.handles| + 1
  {
  }

  /**
   * `play(a)` then `play(b)` with different uris: exactly one handle is live
   * afterwards and it plays `b`; when `isPlaying` told the truth beforehand,
   * the handle that played `a` has been released.
   */
  lemma PlayThenPlayOther(s: State, a: Song, b: Song, pa: Option<seq<Song>>, pb: Option<seq<Song>>)
    requires Inv(s) && a.uri != b.uri
    ensures var r := Play(Play(s, a, pa, true), b, pb, true);
            && r.sound.Some?
            && CountLoaded(r.handles) == 1
            && r.handles[r.sound.value] == HandleState(Uri(b.uri), true, true)
    ensures Synced(s) ==>
            var m := Play(s, a, pa, true);
            var r := Play(m, b, pb, true);
            m.sound.Some? && m.sound.value < |r.handles| && !r.handles[m.sound.value].loaded
  {
    var m := Play(s, a, pa, true);
    if Synced(s) && AlreadyPlaying(s, a) {
      AlreadyPlayingHoldsHandle(s, a);
    }
    var r := Play(m, b, pb, true);
    assert !AlreadyPlaying(m, b);
    AtMostOneLive(r);
  }

  /**
   * When the track ends by itself the flag goes stale: the handle stops but
   * `isPlaying` stays true, so `play` of the same song is a no-op and nothing
   * plays.
   */
  lemma EndedTrackBlocksReplay(s: State, song: Song, list: Option<seq<Song>>, createOk: bool)
    requires Inv(s) && Synced(s) && AlreadyPlaying(s, song)
    ensures s.sound.Some?
    ensures var k := s.sound.value;
            var ended := s.(handles := s.handles[k := Finished(s.handles[k])]);
            && Inv(ended) && ended.isPlaying && !ended.handles[k].playing
            && Play(ended, song, list, createOk) == ended
  {
    AlreadyPlayingHoldsHandle(s, song);
  }

  /**
   * In a synced state a song that is already playing has its handle held.
   * (Without `Synced`, the raw `setIsPlaying` setter can make `isPlaying` true with no handle.)
   */
  lemma AlreadyPlayingHoldsHandle(s: State, song: Song)
    requires Inv(s) && Synced(s) && AlreadyPlaying(s, song)
    ensures s.sound.Some? && s.handles[s.sound.value].playing
  {
  }

  /** The transport operations keep `isPlaying` truthful when no creation fails. */
  lemma TransportKeepsSynced(s: State, song: Song, list: Option<seq<Song>>)
    requires Inv(s) && Synced(s)
    ensures Synced(Play(s, song, list, true))
    ensures Synced(Pause(s))
    ensures Synced(PlayNext(s, true))
    ensures Synced(PlayPrevious(s, true))
  {
  }

  /**
   * A failed creation leaves the flag stale: the old handle is gone, yet
   * `isPlaying` still says true.
   */
  lemma FailedPlayLeavesStaleFlag(a: Song, b: Song)
    requires a.uri != b.uri
    ensures var s := Play(Initial(), a, None, true);
            var r := Play(s, b, None, false);
            r.isPlaying && r.sound.None? && r.currentSong == Some(a) && CountLoaded(r.handles) == 0
  {
  }

  /** `playNext` on the last entry of a playlist without repeated uris changes nothing. */
  lemma PlayNextAtEndIsNoop(s: State, createOk: bool)
    requires Inv(s) && UniqueUris(s.playlist) && |s.playlist| > 0
    requires s.currentSong == Some(s.playlist[|s.playlist| - 1])
    ensures PlayNext(s, createOk) == s
  {
  }

  /** `playPrevious` on the first entry changes nothing, whatever follows it. */
  lemma PlayPreviousAtStartIsNoop(s: State, createOk: bool)
    requires Inv(s) && |s.playlist| > 0
    requires s.currentSong.Some? && s.currentSong.value.uri == s.playlist[0].uri
    ensures PlayPrevious(s, createOk) == s
  {
  }

  /**
   * Inside a playlist without repeated uris, `playNext` from entry `i` plays
   * entry `i + 1` and `playPrevious` from entry `i` plays entry `i - 1`.
   */
  lemma StepsMoveByOne(s: State, i: nat)
    requires Inv(s) && UniqueUris(s.playlist) && i < |s.playlist|
    requires s.currentSong == Some(s.playlist[i])
    ensures i + 1 < |s.playlist| ==>
      var r := PlayNext(s, true);
      r.currentSong == Some(s.playlist[i + 1]) && r.isPlaying && r.playlist == s.playlist
    ensures i > 0 ==>
      var r := PlayPrevious(s, true);
      r.currentSong == Some(s.playlist[i - 1]) && r.isPlaying && r.playlist == s.playlist
  {
    assert FindIndex(s.playlist, s.playlist[i].uri) == i;
  }
}
