/**
 * The `useAudioPlayer` hook: a ref to one `Sound`, reassigned by `loadSound`,
 * and the `isPlaying` state. Each method is proved to perform the step of the
 * same name in module `Player` on the hook's abstract state `Model()`.
 */
module UseAudioPlayer {
  import opened Wrappers
  import opened Audio
  import Player

  class AudioPlayer {
    var source: int
    var sound: Sound?
    var isPlaying: bool

    /** Every handle this hook has created, oldest first, and where `sound` sits among them. */
    ghost var handles: seq<Sound>
    ghost var soundIndex: Option<nat>

    ghost function Model(): Player.State
      reads this, handles
    {
      Player.State(source, StatesOf(handles), soundIndex, isPlaying)
    }

    ghost predicate Valid()
      reads this, handles
    {
      && Distinct(handles)
      && (sound == null <==> soundIndex.None?)
      && (soundIndex.Some? ==> soundIndex.value < |handles| && handles[soundIndex.value] == sound)
      && Player.Inv(Model())
    }

    /** The hook's first render, before its effect runs. */
    constructor (source: int)
      ensures Valid() && Model() == Player.Initial(source)
    {
      this.source := source;
      sound := null;
      isPlaying := false;
      handles := [];
      soundIndex := None;
    }

    /** Unload the referenced handle, keeping the reference: the first step of `loadSound`, and the cleanup. */
    method Release()
      requires Valid()
      modifies handles
      ensures Valid() && handles == old(handles)
      ensures Model() == Player.Release(old(Model()))
    {
      if sound != null {
        ghost var k := soundIndex.value;
        ghost var before := StatesOf(handles);
        sound.UnloadAsync();
        assert StatesOf(handles) == before[k := Unloaded(before[k])];
      }
    }

    /** `loadSound`; `createOk` is false when `createAsync` rejects. */
    method LoadSound(createOk: bool)
      requires Valid()
      modifies this, handles
      ensures Valid()
      ensures Model() == Player.LoadSound(old(Model()), createOk)
      ensures handles == old(handles) || (sound != null && fresh(sound) && handles == old(handles) + [sound])
    {
      Release();
      if createOk {
        ghost var held := handles;
        ghost var r := Player.LoadSound(old(Model()), createOk);
        var newSound := new Sound.CreateAsync(Asset(source));
        handles := handles + [newSound];
        soundIndex := Some(|held|);
        sound := newSound;
        StatesOfAppend(held, newSound);
        assert newSound !in held;
        DistinctAppend(held, newSound);
        assert Model() == r;
      }
    }

    /** `playPause`. */
    method PlayPause()
      requires Valid()
      modifies this, handles
      ensures Valid() && handles == old(handles)
      ensures Model() == Player.PlayPause(old(Model()))
    {
      if sound == null {
        return;
      }
      ghost var k := soundIndex.value;
      ghost var before := StatesOf(handles);
      ghost var r := Player.PlayPause(Model());
      var status := sound.GetStatusAsync();
      if status.isLoaded {
        if status.isPlaying {
          sound.PauseAsync();
          isPlaying := false;
          assert StatesOf(handles) == before[k := Paused(before[k])];
          assert Model() == r;
        } else {
          sound.PlayAsync();
          isPlaying := true;
          assert StatesOf(handles) == before[k := Played(before[k])];
          assert Model() == r;
        }
      }
    }

    /** The effect's cleanup. */
    method Cleanup()
      requires Valid()
      modifies handles
      ensures Valid() && handles == old(handles)
      ensures Model() == Player.Cleanup(old(Model()))
    {
      Release();
    }

    /** A render with a new `source` prop: the old effect's cleanup, then the new effect. */
    method SourceChanged(newSource: int, createOk: bool)
      requires Valid()
      modifies this, handles
      ensures Valid()
      ensures Model() == Player.SourceChanged(old(Model()), newSource, createOk)
      ensures handles == old(handles) || (sound != null && fresh(sound) && handles == old(handles) + [sound])
    {
      if newSource != source {
        Cleanup();
        source := newSource;
        LoadSound(createOk);
      }
    }
  }
}
