# Playback transport of the music player, in Dafny

This project models the playback core of a small React Native music player built
on expo-av: the shared audio-session manager `AudioProvider`
(`context/AudioContext.tsx`) and the two playback hooks `useMultiAudioPlayer`
and `useAudioPlayer`. Each operation is one atomic step.

The audio library's `Sound` is an opaque handle. Here it is the class
`Audio.Sound` with a `loaded` and a `playing` flag and the source it was made
from. `createAsync` can reject. Each creating operation therefore takes a
`createOk` flag, and since none of the three files catches the rejection, the
operation stops at that point.

Every core file is modelled twice:

- a value-level state machine (`Session`, `MultiToggle`, `Player`). Its state
  lists every handle the component ever created, so "at most one live handle" is
  a statement about values. The properties are proved as lemmas and as
  `ensures` of these functions.
- an imperative class (`AudioContext.AudioProvider`,
  `UseMultiAudioPlayer.MultiAudioPlayer`, `UseAudioPlayer.AudioPlayer`). It
  holds the source's fields and real `Sound` objects, and it mutates them step by
  step. Each method is proved to perform the matching value-level step on the
  object's abstract state `Model()`, and to keep `Valid()`.

Where the design description and the code disagree, the model follows the code:

- `play` replaces the playlist whenever a playlist argument is passed, even an
  empty one (`if (fullPlaylist)` is true for `[]`). It does not require the
  playlist to be non-empty.
- A failed `createAsync` does not leave the state unchanged. The old handle has
  already been unloaded and `sound` set to null, and `currentSong` and
  `isPlaying` keep their old values (`Session.FailedPlayLeavesStaleFlag`).
- The session file has no radio mode, no persistence and no error handling, so
  the model has none either.

Behaviour of the code that the model exposes:

- In `useMultiAudioPlayer`, an id of `""` is falsy. A player started under
  `""` is therefore never paused when another id starts
  (`MultiToggle.EmptyIdIsNeverPaused`).
- In `useAudioPlayer`, neither `loadSound` nor the effect cleanup resets
  `isPlaying` (`Player.LoadSoundLeavesFlag`).
- The session manager exposes raw `setCurrentSong`/`setIsPlaying` setters. These
  keep the resource invariant, but they can make `isPlaying` disagree with the
  handle.

## Model

| member | source | states |
|---|---|---|
| `Audio.Created` | hooks/useAudioPlayer.ts:12 | a handle from `createAsync` without autoplay is loaded, not playing, and made from the given source |
| `Audio.StatusOf` | hooks/useAudioPlayer.ts:19-21 | a status reports loaded exactly when the handle is loaded, and playing exactly when it is loaded and playing |
| `Audio.Finished` | context/AudioContext.tsx:42 | a track that reaches its end stops by itself: the handle keeps its source and loaded flag and is no longer playing |
| `Audio.OnlyLoadedCount` | context/AudioContext.tsx:34-46 | when only one index may hold a loaded handle, the number of live handles is exactly 1 if that handle is loaded and 0 otherwise, so never more than one |
| `Audio.Sound.CreateAsync` | context/AudioContext.tsx:45 | a new handle is loaded and paused, and it remembers its source |
| `Audio.Sound.PlayAsync` | context/AudioContext.tsx:47 | playing a loaded handle sets it playing and changes nothing else |
| `Audio.Sound.PauseAsync` | context/AudioContext.tsx:61 | pausing a loaded handle clears `playing` and changes nothing else |
| `Audio.Sound.UnloadAsync` | context/AudioContext.tsx:36 | unloading clears both `loaded` and `playing` |
| `Audio.Sound.GetStatusAsync` | hooks/useAudioPlayer.ts:19 | the status is `StatusOf` the handle's current state, and nothing changes |
| `Session.Initial` | context/AudioContext.tsx:27-32 | the mounted provider has no song, no handle, empty playlist, queue and history, and satisfies the invariant |
| `Session.FindIndex` | context/AudioContext.tsx:72 | the result is -1 when no entry has the uri; otherwise it is an index of that uri with no match before it |
| `Session.Unload` | context/AudioContext.tsx:34-39 | afterwards nothing is held and no handle is loaded; only the held handle changed; the song, flag, playlist and history are unchanged |
| `Session.Play` | context/AudioContext.tsx:41-57 | no-op when the same uri is already playing; otherwise every older handle is released, and on success exactly one new handle for the song's uri is held and playing, the song is current, `isPlaying` is true, the playlist is replaced only when one is passed, and history gains the previous song only if there was one; on a failed creation nothing is held and the song and flag are unchanged; the invariant is kept |
| `Session.Start` | context/AudioContext.tsx:45-56 | with nothing held, appends one loaded, playing handle for the uri, holds it, and updates the song, flag, playlist and history |
| `Session.AcquireKeepsInv` | context/AudioContext.tsx:43-46 | holding a new playing handle after the unload keeps the at-most-one-live invariant |
| `Session.Pause` | context/AudioContext.tsx:59-64 | no-op with nothing held; otherwise only the held handle is paused and `isPlaying` becomes false, and the song, playlist, history and handle reference are unchanged |
| `Session.SetPlaylist` | context/AudioContext.tsx:66-68 | replaces the playlist and nothing else |
| `Session.SetCurrentSong` | context/AudioContext.tsx:99 | the exposed setter changes only the current song and keeps the invariant |
| `Session.SetIsPlaying` | context/AudioContext.tsx:100 | the exposed setter changes only the flag, touches no handle and keeps the invariant |
| `Session.NextIndex` | context/AudioContext.tsx:71-73 | a target exists only when there is a current song whose uri first matches at an index before the last entry, and the target is the entry after it |
| `Session.PreviousIndex` | context/AudioContext.tsx:80-82 | a target exists only when the uri's first match is after index 0, and the target is the entry before it; otherwise the uri is absent or matches entry 0 |
| `Session.PlayNext` | context/AudioContext.tsx:70-77 | no-op without a target; otherwise it is `play` of the next entry with no playlist argument; the playlist never changes |
| `Session.PlayPrevious` | context/AudioContext.tsx:79-86 | no-op without a target, with no wrap-around; otherwise it is `play` of the previous entry; the playlist never changes |
| `Session.AtMostOneLive` | context/AudioContext.tsx:34-46 | in every reachable state at most one handle is live, and one is live exactly when a handle is held |
| `Session.UnloadLeavesNoneLive` | context/AudioContext.tsx:34-39 | after `unload` no handle is live |
| `Session.PlayTwiceAcquiresOnce` | context/AudioContext.tsx:42 | a second `play` of the song just started is a no-op, so one handle is created in all |
| `Session.PlayThenPlayOther` | context/AudioContext.tsx:41-57 | after `play(a)` then `play(b)` with different uris, exactly one handle is live and it plays b, from every reachable state; when the flag was in sync beforehand, a's handle has been released |
| `Session.EndedTrackBlocksReplay` | context/AudioContext.tsx:42 | after the playing track ends by itself, `isPlaying` is still true, nothing plays, and `play` of the same song is a no-op |
| `Session.AlreadyPlayingHoldsHandle` | context/AudioContext.tsx:42 | in a synced state, a song that passes the idempotence guard has a playing handle held |
| `Session.TransportKeepsSynced` | context/AudioContext.tsx:41-86 | successful `play`, `pause`, `playNext` and `playPrevious` keep `isPlaying` equal to whether the held handle plays |
| `Session.FailedPlayLeavesStaleFlag` | context/AudioContext.tsx:43-50 | when creation fails after a song was playing, no handle is live but `isPlaying` stays true and the old song stays current |
| `Session.PlayNextAtEndIsNoop` | context/AudioContext.tsx:73 | `playNext` on the last entry of a playlist with distinct uris changes nothing |
| `Session.PlayPreviousAtStartIsNoop` | context/AudioContext.tsx:82 | `playPrevious` when the current uri matches entry 0 changes nothing |
| `Session.StepsMoveByOne` | context/AudioContext.tsx:70-86 | in a playlist with distinct uris, next from entry i plays entry i+1 and previous plays entry i-1, with the playlist kept |
| `AudioContext.AudioProvider.constructor` | context/AudioContext.tsx:27-32 | the new provider is valid and in the initial state |
| `AudioContext.AudioProvider.Unload` | context/AudioContext.tsx:34-39 | performs `Session.Unload` on the object's state |
| `AudioContext.AudioProvider.Play` | context/AudioContext.tsx:41-57 | performs `Session.Play` on the object's state and keeps it valid; the list of created handles is kept, or grows by exactly the fresh held handle |
| `AudioContext.AudioProvider.Start` | context/AudioContext.tsx:45-56 | performs `Session.Start`; the held handle is fresh and appended to the created handles |
| `AudioContext.AudioProvider.Acquire` | context/AudioContext.tsx:45-47 | appends exactly one fresh playing handle to the created handles, holds it, and keeps the object valid |
| `AudioContext.AudioProvider.Pause` | context/AudioContext.tsx:59-64 | performs `Session.Pause` |
| `AudioContext.AudioProvider.SetPlaylist` | context/AudioContext.tsx:66-68 | performs `Session.SetPlaylist` |
| `AudioContext.AudioProvider.SetCurrentSong` | context/AudioContext.tsx:99 | performs `Session.SetCurrentSong` |
| `AudioContext.AudioProvider.SetIsPlaying` | context/AudioContext.tsx:100 | performs `Session.SetIsPlaying` |
| `AudioContext.AudioProvider.PlayNext` | context/AudioContext.tsx:70-77 | performs `Session.PlayNext`; the created handles are kept, or grow by exactly the fresh held handle |
| `AudioContext.AudioProvider.PlayPrevious` | context/AudioContext.tsx:79-86 | performs `Session.PlayPrevious`; the created handles are kept, or grow by exactly the fresh held handle |
| `MultiToggle.Initial` | hooks/useMultiAudioPlayer.ts:5-6 | the hook starts with an empty record and no current id, which satisfies both invariants |
| `MultiToggle.PausePrevious` | hooks/useMultiAudioPlayer.ts:10-12 | when the guard holds, the player under `playingId`, if stored, is paused and nothing else changes; if only that player could play, nobody plays afterwards |
| `MultiToggle.ToggleStored` | hooks/useMultiAudioPlayer.ts:15-23 | a stored player flips between playing and paused; `playingId` becomes none after a pause and the id after a play; other players are untouched |
| `MultiToggle.AddPlaying` | hooks/useMultiAudioPlayer.ts:24-28 | exactly one new handle for the asset is stored under the id and plays, the id becomes current, and existing entries are untouched |
| `MultiToggle.Toggle` | hooks/useMultiAudioPlayer.ts:8-30 | no entry is ever lost and at most the id is added; other handles are untouched except the paused previous one; the stored id flips; a new id gets one playing handle; `playingId` ends as none or the id, and stays unchanged only after a failed creation |
| `MultiToggle.ToggleKeepsOnlyCurrentPlaying` | hooks/useMultiAudioPlayer.ts:10-28 | if only the player under `playingId` could play before `toggle`, the same holds after it, given that `playingId` is not "" |
| `MultiToggle.EmptyIdIsNeverPaused` | hooks/useMultiAudioPlayer.ts:10 | toggling "" and then another id leaves both playing |
| `MultiToggle.ToggleTwiceRestoresHandle` | hooks/useMultiAudioPlayer.ts:15-23 | toggling a stored id twice restores its handle and the set of ids |
| `UseMultiAudioPlayer.MultiAudioPlayer.constructor` | hooks/useMultiAudioPlayer.ts:5-6 | the new hook is valid and in the initial state |
| `UseMultiAudioPlayer.MultiAudioPlayer.Toggle` | hooks/useMultiAudioPlayer.ts:8-30 | performs `MultiToggle.Toggle` on the record of handles; every id keeps the same `Sound` object, a new id gets a fresh one, and no handle is ever stored under two ids |
| `UseMultiAudioPlayer.MultiAudioPlayer.PausePrevious` | hooks/useMultiAudioPlayer.ts:10-12 | performs `MultiToggle.PausePrevious` without reassigning the record or the id |
| `UseMultiAudioPlayer.MultiAudioPlayer.ToggleStored` | hooks/useMultiAudioPlayer.ts:15-23 | performs `MultiToggle.ToggleStored` |
| `UseMultiAudioPlayer.MultiAudioPlayer.AddPlaying` | hooks/useMultiAudioPlayer.ts:24-28 | performs `MultiToggle.AddPlaying`; the record gains only a fresh handle under the id and keeps every other object |
| `Player.Initial` | hooks/useAudioPlayer.ts:5-6 | the hook starts with no handle and `isPlaying` false |
| `Player.Release` | hooks/useAudioPlayer.ts:9-11 | afterwards no handle is loaded, and the reference, flag and source are kept |
| `Player.LoadSound` | hooks/useAudioPlayer.ts:8-14 | every older handle is released; on success one new loaded, paused handle for the source is referenced; on failure the reference stays on the released handle; `isPlaying` is untouched |
| `Player.PlayPause` | hooks/useAudioPlayer.ts:16-29 | no-op with no reference or an unloaded handle; otherwise the handle flips and `isPlaying` becomes its new playing state; other handles are untouched |
| `Player.Cleanup` | hooks/useAudioPlayer.ts:34-38 | afterwards no handle is loaded, and the reference and flag are kept |
| `Player.SourceChanged` | hooks/useAudioPlayer.ts:31-39 | an unchanged source changes nothing; a new source releases every older handle, keeps `isPlaying`, and on success references a loaded, paused handle for the new source |
| `Player.AtMostOneLive` | hooks/useAudioPlayer.ts:8-14 | the hook never owns more than one live handle, and owns one exactly when the referenced handle is loaded |
| `Player.CleanupReleasesAll` | hooks/useAudioPlayer.ts:34-38 | after the cleanup no handle is live |
| `Player.LoadSoundOwnsOne` | hooks/useAudioPlayer.ts:9-13 | after a successful load exactly one handle is live, the one for the source |
| `Player.PlayPauseTwice` | hooks/useAudioPlayer.ts:21-27 | two calls on a loaded handle restore every handle and leave `isPlaying` equal to its original playing state; from a synced state they restore everything |
| `Player.LoadSoundLeavesFlag` | hooks/useAudioPlayer.ts:8-14 | reloading while playing leaves `isPlaying` true over a new handle that is not playing |
| `UseAudioPlayer.AudioPlayer.constructor` | hooks/useAudioPlayer.ts:5-6 | the new hook is valid and in the initial state |
| `UseAudioPlayer.AudioPlayer.Release` | hooks/useAudioPlayer.ts:9-11 | performs `Player.Release` |
| `UseAudioPlayer.AudioPlayer.LoadSound` | hooks/useAudioPlayer.ts:8-14 | performs `Player.LoadSound`; the created handles are kept, or grow by exactly the fresh referenced handle |
| `UseAudioPlayer.AudioPlayer.PlayPause` | hooks/useAudioPlayer.ts:16-29 | performs `Player.PlayPause` |
| `UseAudioPlayer.AudioPlayer.Cleanup` | hooks/useAudioPlayer.ts:34-38 | performs `Player.Cleanup` |
| `UseAudioPlayer.AudioPlayer.SourceChanged` | hooks/useAudioPlayer.ts:31-39 | performs `Player.SourceChanged`; the created handles are kept, or grow by exactly the fresh referenced handle |

## Left out

- React scheduling is not modelled: `useState` batching, `await` interleavings and stale closures. Each operation is one atomic step that sees the latest state.
- expo-av internals are not modelled. A handle is only its source and its loaded and playing flags. A `createAsync` rejection is the `createOk` parameter; the other calls are assumed never to fail.
- `playAsync`/`pauseAsync` on an unloaded handle reject in expo-av. Here they are preconditions of `Audio.Sound`, and the modelled code is proved never to break them.
- The record in `useMultiAudioPlayer` is a map. Keys inherited from `Object.prototype`, such as `"toString"`, are not modelled.
- A handle stops by itself when its track ends. No operation of the model performs that step: `playing` changes only through the app's calls. `Audio.Finished` and `Session.EndedTrackBlocksReplay` state the consequence. The flag stays true, so `play` of the same song is then a no-op.
- Playback position, duration, looping and status polling are not modelled. Only `components/MiniPlayer.tsx` uses them, and it is UI.
- Nothing outside the three core files is modelled: the screens, routing layouts and `components/SongCard.js`, along with session restore, favourites and playlist storage, which live in UI code and AsyncStorage.
- Consumers that call methods directly on the exposed `sound` handle are not modelled.
- MultiToggle.ToggleKeepsOnlyCurrentPlaying: requires `playingId` not to be "". The code's truthiness test skips the pause for "" (`MultiToggle.EmptyIdIsNeverPaused`).
- Session.PlayThenPlayOther: the release of a's handle is stated only when `isPlaying` agreed with the held handle. The raw `setIsPlaying` setter or a failed creation (`Session.FailedPlayLeavesStaleFlag`) can make the guard skip a song that has no handle. The exactly-one-live half holds from every reachable state.
- Session.PlayNextAtEndIsNoop: requires distinct uris, because the lookup takes the first uri match. An earlier duplicate of the last entry makes `playNext` move.
- Player.PlayPauseTwice: restores `isPlaying` itself only from a synced state, because `loadSound` and the cleanup never reset the flag.
