/**
 * `useAudioPlayer` as a state machine over values: the hook's one handle
 * reference (`sound`, an index into every handle it has created), the
 * `isPlaying` flag, and the asset number `source` the effect loads.
 */
module Player {
  import opened Wrappers
  import opened Audio

  datatype State = State(source: int, handles: seq<HandleState>, sound: Option<nat>, isPlaying: bool)

  /** The hook before its effect has run. */
  function Initial(source: int): (s: State)
    ensures Inv(s) && Synced(s) && s.sound.None? && s.source == source
  {
    State(source, [], None, false)
  }

  /** Only the referenced handle can be loaded. Unlike the session manager, the reference may point at an unloaded handle. */
  ghost predicate Inv(s: State)
  {
    && Coherent(s.handles)
    && OnlyLoaded(s.handles, s.sound)
    && (s.sound.Some? ==> s.sound.value < |s.handles|)
  }

  /** `isPlaying` tells the truth about the referenced handle. */
  ghost predicate Synced(s: State)
    requires Inv(s)
  {
    s.isPlaying == (s.sound.Some? && s.handles[s.sound.value].playing)
  }

  /** `sound.current.unloadAsync()` when there is a reference; the reference itself stays. */
  function Release(s: State): (r: State)
    requires Inv(s)
    ensures Inv(r) && r.sound == s.sound && r.isPlaying == s.isPlaying && r.source == s.source
    ensures |r.handles| == |s.handles| && forall i :: 0 <= i < |r.handles| ==> !r.handles[i].loaded
    ensures forall i :: 0 <= i < |s.handles| ==> r.handles[i].source == s.handles[i].source
  {
    match s.sound
    case None => s
    case Some(k) => s.(handles := s.handles[k := Unloaded(s.handles[k])])
  }

  /**
   * `loadSound`: release the old handle, then create one for `source` and
   * reference it. `createOk` is false when `createAsync` rejects; the reference
   * then still points at the released handle.
   */
  function LoadSound(s: State, createOk: bool): (r: State)
    requires Inv(s)
    ensures Inv(r) && r.isPlaying == s.isPlaying && r.source == s.source
    ensures |r.handles| >= |s.handles|
    ensures forall i :: 0 <= i < |s.handles| ==> !r.handles[i].loaded
    ensures createOk ==>
      && |r.handles| == |s.handles| + 1
      && r.sound == Some(|s.handles|)
      && r.handles[|s.handles|] == HandleState(Asset(s.source), true, false)
    ensures !createOk ==> r.sound == s.sound && |r.handles| == |s.handles|
  {
    var u := Release(s);
    if createOk then u.(handles := u.handles + [Created(Asset(s.source))], sound := Some(|u.handles|))
    else u
  }

  /** `playPause`: flip a loaded handle according to its status; otherwise do nothing. */
  function PlayPause(s: State): (r: State)
    requires Inv(s)
    ensures Inv(r) && r.sound == s.sound && r.source == s.source && |r.handles| == |s.handles|
    ensures s.sound.None? ==> r == s
    ensures s.sound.Some? && !s.handles[s.sound.value].loaded ==> r == s
    ensures s.sound.Some? && s.handles[s.sound.value].loaded ==>
      && r.handles[s.sound.value].playing == !s.handles[s.sound.value].playing
      && r.isPlaying == !s.handles[s.sound.value].playing
      && Synced(r)
      && forall i :: 0 <= i < |s.handles| && i != s.sound.value ==> r.handles[i] == s.handles[i]
    ensures Synced(s) ==> Synced(r)
  {
    match s.sound
    case None => s
    case Some(k) =>
      var status := StatusOf(s.handles[k]);
      if !status.isLoaded then s
      else if status.isPlaying then s.(handles := s.handles[k := Paused(s.handles[k])], isPlaying := false)
      else s.(handles := s.handles[k := Played(s.handles[k])], isPlaying := true)
  }

  /** The effect's cleanup: unload the referenced handle, if any. */
  function Cleanup(s: State): (r: State)
    requires Inv(s)
    ensures Inv(r) && r.sound == s.sound && r.isPlaying == s.isPlaying && r.source == s.source
    ensures forall i :: 0 <= i < |r.handles| ==> !r.handles[i].loaded
  {
    Release(s)
  }

  /** A render with a different `source`: the old effect is cleaned up and the new one loads. */
  function SourceChanged(s: State, source: int, createOk: bool): (r: State)
    requires Inv(s)
    ensures Inv(r) && r.source == source && |r.handles| >= |s.handles|
    ensures source == s.source ==> r == s
    ensures source != s.source ==>
      (forall i :: 0 <= i < |s.handles| ==> !r.handles[i].loaded) && r.isPlaying == s.isPlaying
    ensures source != s.source && createOk ==>
      r.sound.Some? && r.handles[r.sound.value] == HandleState(Asset(source), true, false)
  {
    if source == s.source then s
    else LoadSound(Cleanup(s).(source := source), createOk)
  }

  // ---------------------------------------------------------------------
  // Properties of the single-player hook
  // ---------------------------------------------------------------------

  /** The hook never owns more than one live handle. */
  lemma AtMostOneLive(s: State)
    requires Inv(s)
    ensures CountLoaded(s.handles) <= 1
    ensures CountLoaded(s.handles) == 1 <==> s.sound.Some? && s.handles[s.sound.value].loaded
  {
    OnlyLoadedCount(s.handles, s.sound);
  }

  /** After the cleanup no handle of the hook is live. */
  lemma CleanupReleasesAll(s: State)
    requires Inv(s)
    ensures CountLoaded(Cleanup(s).handles) == 0
  {
    AtMostOneLive(Cleanup(s));
  }

  /** After a successful `loadSound` exactly one handle is live: the new one. */
  lemma LoadSoundOwnsOne(s: State)
    requires Inv(s)
    ensures var r := LoadSound(s, true);
            CountLoaded(r.handles) == 1 && r.handles[r.sound.value].source == Asset(s.source)
  {
    AtMostOneLive(LoadSound(s, true));
  }

  /**
   * Two `playPause` calls on a loaded handle restore every handle, and leave
   * `isPlaying` equal to whether the handle was playing; from a synced state
   * they restore the whole state.
   */
  lemma PlayPauseTwice(s: State)
    requires Inv(s) && s.sound.Some? && s.handles[s.sound.value].loaded
    ensures PlayPause(PlayPause(s)).handles == s.handles
    ensures PlayPause(PlayPause(s)).isPlaying == s.handles[s.sound.value].playing
    ensures Synced(s) ==> PlayPause(PlayPause(s)) == s
  {
  }

  /**
   * `loadSound` does not touch `isPlaying`: reloading while playing leaves the
   * flag true over a new handle that is not playing.
   */
  lemma LoadSoundLeavesFlag(s: State)
    requires Inv(s) && Synced(s) && s.sound.Some? && s.handles[s.sound.value].playing
    ensures var r := LoadSound(s, true);
            r.isPlaying && !r.handles[r.sound.value].playing && !Synced(r)
  {
  }
}
