/**
 * The `useMultiAudioPlayer` hook: a record of `Sound` objects kept in a ref and
 * mutated in place, plus the `playingId` state. `Toggle` is proved to perform
 * `MultiToggle.Toggle` on the hook's abstract state `Model()`.
 */
module UseMultiAudioPlayer {
  import opened Wrappers
  import opened Audio
  import MultiToggle

  class MultiAudioPlayer {
    var players: map<string, Sound>
    var playingId: Option<string>

    ghost function Model(): MultiToggle.State
      reads this, players.Values
    {
      MultiToggle.State(map k | k in players :: players[k].State(), playingId)
    }

    /** No handle is stored under two ids. */
    ghost predicate Valid()
      reads this, players.Values
    {
      && (forall a, b :: a in players && b in players && a != b ==> players[a] != players[b])
      && MultiToggle.Inv(Model())
    }

    constructor ()
      ensures Valid() && Model() == MultiToggle.Initial()
    {
      players := map[];
      playingId := None;
    }

    /** `toggle(id, source)`; `createOk` is false when `createAsync` rejects. */
    method Toggle(id: string, source: int, createOk: bool)
      requires Valid()
      modifies this, players.Values
      ensures Valid()
      ensures Model() == MultiToggle.Toggle(old(Model()), id, source, createOk)
      ensures forall k :: k in old(players) ==> k in players && players[k] == old(players)[k]
      ensures id !in old(players) && id in players ==> fresh(players[id])
    {
      PausePrevious(id);
      if id in players {
        ToggleStored(id);
      } else if createOk {
        AddPlaying(id, source);
      }
    }

    /** The first step of `toggle`: pause the player that was playing under another id. */
    method PausePrevious(id: string)
      requires Valid()
      modifies players.Values
      ensures Valid() && players == old(players) && playingId == old(playingId)
      ensures Model() == MultiToggle.PausePrevious(old(Model()), id)
    {
      ghost var r := MultiToggle.PausePrevious(Model(), id);
      if playingId.Some? && playingId.value != "" && playingId.value != id {
        if playingId.value in players {
          var previous := players[playingId.value];
          previous.PauseAsync();
          assert forall k :: k in players && k != playingId.value ==> players[k] != previous;
        }
      }
      assert Model() == r;
    }

    /** `toggle` of a stored id: pause or play it according to its status. */
    method ToggleStored(id: string)
      requires Valid() && id in players
      modifies this, players.Values
      ensures Valid() && players == old(players)
      ensures Model() == MultiToggle.ToggleStored(old(Model()), id)
    {
      ghost var r := MultiToggle.ToggleStored(Model(), id);
      var player := players[id];
      var status := player.GetStatusAsync();
      if status.isPlaying {
        player.PauseAsync();
        playingId := None;
      } else {
        player.PlayAsync();
        playingId := Some(id);
      }
      assert forall k :: k in players && k != id ==> players[k] != player;
      assert Model() == r;
    }

    /** `toggle` of a new id: create, store and play its handle. */
    method AddPlaying(id: string, source: int)
      requires Valid() && id !in players
      modifies this
      ensures Valid()
      ensures Model() == MultiToggle.AddPlaying(old(Model()), id, source)
      ensures id in players && fresh(players[id]) && players == old(players)[id := players[id]]
    {
      ghost var r := MultiToggle.AddPlaying(Model(), id, source);
      var sound := new Sound.CreateAsync(Asset(source));
      players := players[id := sound];
      sound.PlayAsync();
      playingId := Some(id);
      assert Model() == r;
    }
  }
}
