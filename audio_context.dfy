/**
 * `AudioProvider`: the session manager as the code has it, a component whose
 * state fields the operations update step by step and which owns at most one
 * live `Sound`. Each method is proved to perform the step of the same name in
 * module `Session` on the provider's abstract state `Model()`.
 */
module AudioContext {
  import opened Wrappers
  import opened Audio
  import Session

  class AudioProvider {
    var currentSong: Option<Session.Song>
    var isPlaying: bool
    var queue: seq<Session.Song>
    var playlist: seq<Session.Song>
    var sound: Sound?
    var history: seq<Session.Song>

    /** Every handle this provider has created, oldest first, and where `sound` sits among them. */
    ghost var handles: seq<Sound>
    ghost var soundIndex: Option<nat>

    ghost function Model(): Session.State
      reads this, handles
    {
      Session.State(currentSong, isPlaying, queue, playlist, history, StatesOf(handles), soundIndex)
    }

    ghost predicate Valid()
      reads this, handles
    {
      && Distinct(handles)
      && (sound == null <==> soundIndex.None?)
      && (soundIndex.Some? ==> soundIndex.value < |handles| && handles[soundIndex.value] == sound)
      && Session.Inv(Model())
    }

    constructor ()
      ensures Valid() && Model() == Session.Initial()
    {
      currentSong := None;
      isPlaying := false;
      queue := [];
      playlist := [];
      sound := null;
      history := [];
      handles := [];
      soundIndex := None;
    }

    /** `unload`: release the held handle and drop the reference. */
    method Unload()
      requires Valid()
      modifies this, handles
      ensures Valid() && handles == old(handles)
      ensures Model() == Session.Unload(old(Model()))
    {
      if sound != null {
        ghost var k := soundIndex.value;
        ghost var before := StatesOf(handles);
        sound.UnloadAsync();
        sound := null;
        soundIndex := None;
        assert StatesOf(handles) == before[k := Unloaded(before[k])];
      }
    }

    /** `play(song, fullPlaylist)`; `createOk` is false when `createAsync` rejects. */
    method Play(song: Session.Song, fullPlaylist: Option<seq<Session.Song>>, createOk: bool)
      requires Valid()
      modifies this, handles
      ensures Valid()
      ensures Model() == Session.Play(old(Model()), song, fullPlaylist, createOk)
      ensures handles == old(handles) || (sound != null && fresh(sound) && handles == old(handles) + [sound])
    {
      if currentSong.Some? && currentSong.value.uri == song.uri && isPlaying {
        return;
      }
      Unload();
      if createOk {
        Start(song, fullPlaylist);
      }
    }

    /** The part of `play` after the unload: acquire and start a handle, then record the song. */
    method Start(song: Session.Song, fullPlaylist: Option<seq<Session.Song>>)
      requires Valid() && sound == null
      modifies this
      ensures Valid()
      ensures Model() == Session.Start(old(Model()), song, fullPlaylist)
      ensures sound != null && fresh(sound) && handles == old(handles) + [sound]
    {
      ghost var r := Session.Start(Model(), song, fullPlaylist);
      Acquire(Uri(song.uri));
      ghost var states := StatesOf(handles);
      var previous := currentSong;
      currentSong := Some(song);
      isPlaying := true;
      if fullPlaylist.Some? {
        playlist := fullPlaylist.value;
      }
      if previous.Some? {
        history := history + [previous.value];
      }
      assert StatesOf(handles) == states == r.handles;
      assert Model() == r;
    }

    /** `createAsync`, `setSound` and `playAsync` in `play`: create a handle, hold it, and start it. */
    method Acquire(src: Source)
      requires Valid() && sound == null
      modifies this
      ensures Valid()
      ensures Model() == old(Model()).(handles := old(Model()).handles + [Played(Created(src))], sound := Some(|old(handles)|))
      ensures sound != null && fresh(sound) && handles == old(handles) + [sound]
    {
      ghost var held := handles;
      ghost var expected := Model().(handles := Model().handles + [Played(Created(src))], sound := Some(|held|));
      Session.AcquireKeepsInv(Model(), src);
      var newSound := new Sound.CreateAsync(src);
      newSound.PlayAsync();
      assert StatesOf(held) == old(StatesOf(handles));
      handles := handles + [newSound];
      soundIndex := Some(|held|);
      sound := newSound;
      StatesOfAppend(held, newSound);
      assert newSound !in held;
      DistinctAppend(held, newSound);
      assert Model() == expected;
    }

    /** `pause`: only when a handle is held. */
    method Pause()
      requires Valid()
      modifies this, handles
      ensures Valid() && handles == old(handles)
      ensures Model() == Session.Pause(old(Model()))
    {
      if sound != null {
        ghost var k := soundIndex.value;
        ghost var before := StatesOf(handles);
        sound.PauseAsync();
        isPlaying := false;
        assert StatesOf(handles) == before[k := Paused(before[k])];
      }
    }

    /** `setPlaylist`. */
    method SetPlaylist(list: seq<Session.Song>)
      requires Valid()
      modifies this
      ensures Valid() && handles == old(handles)
      ensures Model() == Session.SetPlaylist(old(Model()), list)
    {
      playlist := list;
    }

    /** The exposed `setCurrentSong` setter. */
    method SetCurrentSong(song: Session.Song)
      requires Valid()
      modifies this
      ensures Valid() && handles == old(handles)
      ensures Model() == Session.SetCurrentSong(old(Model()), song)
    {
      currentSong := Some(song);
    }

    /** The exposed `setIsPlaying` setter. */
    method SetIsPlaying(p: bool)
      requires Valid()
      modifies this
      ensures Valid() && handles == old(handles)
      ensures Model() == Session.SetIsPlaying(old(Model()), p)
    {
      isPlaying := p;
    }

    /** `playNext`. */
    method PlayNext(createOk: bool)
      requires Valid()
      modifies this, handles
      ensures Valid()
      ensures Model() == Session.PlayNext(old(Model()), createOk)
      ensures handles == old(handles) || (sound != null && fresh(sound) && handles == old(handles) + [sound])
    {
      if currentSong.None? || |playlist| == 0 {
        return;
      }
      var index := Session.FindIndex(playlist, currentSong.value.uri);
      if index >= 0 && index < |playlist| - 1 {
        assert Session.NextIndex(Model()) == Some(index + 1);
        Play(playlist[index + 1], None, createOk);
      }
    }

    /** `playPrevious`. */
    method PlayPrevious(createOk: bool)
      requires Valid()
      modifies this, handles
      ensures Valid()
      ensures Model() == Session.PlayPrevious(old(Model()), createOk)
      ensures handles == old(handles) || (sound != null && fresh(sound) && handles == old(handles) + [sound])
    {
      if currentSong.None? || |playlist| == 0 {
        return;
      }
      var index := Session.FindIndex(playlist, currentSong.value.uri);
      if index > 0 {
        assert Session.PreviousIndex(Model()) == Some(index - 1);
        Play(playlist[index - 1], None, createOk);
      }
    }
  }
}
