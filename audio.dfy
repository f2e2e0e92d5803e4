/**
 * The audio library's playback handle (`Audio.Sound` of expo-av), seen from the
 * outside only: a handle is created loaded and paused, can be played, paused and
 * unloaded, and reports its status. The library's internals are not modelled.
 */
module Audio {
  import opened Wrappers

  /** What a handle was created from: a file URI or a bundled asset number. */
  datatype Source = Uri(uri: string) | Asset(id: int)

  /** The observable state of one handle. */
  datatype HandleState = HandleState(source: Source, loaded: bool, playing: bool)

  /** The answer of `getStatusAsync`; an unloaded handle reports `isPlaying` false. */
  datatype Status = Status(isLoaded: bool, isPlaying: bool)

  /** `createAsync` without `shouldPlay`: loaded, not yet playing. */
  function Created(src: Source): (h: HandleState)
    ensures h.loaded && !h.playing && h.source == src
  {
    HandleState(src, true, false)
  }

  function Played(h: HandleState): HandleState { h.(playing := true) }

  function Paused(h: HandleState): HandleState { h.(playing := false) }

  /** Playback reaching the end of the media: the library stops the handle by itself, with no call from the app. */
  function Finished(h: HandleState): (r: HandleState)
    ensures r.loaded == h.loaded && !r.playing && r.source == h.source
  {
    h.(playing := false)
  }

  /** `unloadAsync` frees the handle; unloading twice is harmless. */
  function Unloaded(h: HandleState): HandleState { h.(loaded := false, playing := false) }

  function StatusOf(h: HandleState): (st: Status)
    ensures st.isPlaying ==> st.isLoaded
    ensures st.isLoaded == h.loaded
    ensures st.isPlaying == (h.loaded && h.playing)
  {
    Status(h.loaded, h.loaded && h.playing)
  }

  /** Every handle that plays is loaded. */
  ghost predicate Coherent(hs: seq<HandleState>)
  {
    forall i :: 0 <= i < |hs| ==> (hs[i].playing ==> hs[i].loaded)
  }

  /** Every loaded handle in `hs` sits at index `k`: at most one handle is live. */
  ghost predicate OnlyLoaded(hs: seq<HandleState>, k: Option<nat>)
  {
    forall i :: 0 <= i < |hs| && hs[i].loaded ==> k == Some(i)
  }

  /** The number of live (loaded) handles. */
  function CountLoaded(hs: seq<HandleState>): nat
  {
    if hs == [] then 0
    else CountLoaded(hs[..|hs| - 1]) + (if hs[|hs| - 1].loaded then 1 else 0)
  }

  /** When only index `k` may be loaded, the number of live handles is 1 or 0, and it is 1 exactly when `k`'s handle is loaded. */
  lemma {:induction false} OnlyLoadedCount(hs: seq<HandleState>, k: Option<nat>)
    requires OnlyLoaded(hs, k)
    ensures CountLoaded(hs) == if k.Some? && k.value < |hs| && hs[k.value].loaded then 1 else 0
    ensures CountLoaded(hs) <= 1
  {
    if hs != [] {
      var init := hs[..|hs| - 1];
      assert OnlyLoaded(init, k) by {
        forall i | 0 <= i < |init| && init[i].loaded ensures k == Some(i) {
          assert hs[i] == init[i];
        }
      }
      OnlyLoadedCount(init, k);
      if k.Some? && k.value < |init| {
        assert hs[k.value] == init[k.value];
      }
    }
  }

  /** No handle object occurs twice. */
  ghost predicate Distinct(hs: seq<Sound>)
  {
    forall i, j :: 0 <= i < j < |hs| ==> hs[i] != hs[j]
  }

  /** The states of a sequence of handles, in order. */
  ghost function StatesOf(hs: seq<Sound>): (r: seq<HandleState>)
    reads hs
    ensures |r| == |hs|
    ensures forall i :: 0 <= i < |hs| ==> r[i] == hs[i].State()
  {
    seq(|hs|, i requires 0 <= i < |hs| reads hs => hs[i].State())
  }

  lemma DistinctAppend(hs: seq<Sound>, h: Sound)
    requires Distinct(hs) && h !in hs
    ensures Distinct(hs + [h])
  {
  }

  lemma StatesOfAppend(hs: seq<Sound>, h: Sound)
    ensures StatesOf(hs + [h]) == StatesOf(hs) + [h.State()]
  {
  }

  /** A playback handle as the app sees it. */
  class Sound {
    const source: Source
    var loaded: bool
    var playing: bool

    function State(): HandleState
      reads this
    {
      HandleState(source, loaded, playing)
    }

    /** `Audio.Sound.createAsync(source)`. */
    constructor CreateAsync(src: Source)
      ensures State() == Created(src)
    {
      source := src;
      loaded := true;
      playing := false;
    }

    /** `playAsync`: the library rejects it on an unloaded handle. */
    method PlayAsync()
      requires loaded
      modifies this
      ensures State() == Played(old(State()))
    {
      playing := true;
    }

    /** `pauseAsync`: the library rejects it on an unloaded handle. */
    method PauseAsync()
      requires loaded
      modifies this
      ensures State() == Paused(old(State()))
    {
      playing := false;
    }

    /** `unloadAsync`. */
    method UnloadAsync()
      modifies this
      ensures State() == Unloaded(old(State()))
    {
      loaded := false;
      playing := false;
    }

    /** `getStatusAsync`: changes nothing. */
    method GetStatusAsync() returns (st: Status)
      ensures st == StatusOf(State())
    {
      st := StatusOf(State());
    }
  }
}
