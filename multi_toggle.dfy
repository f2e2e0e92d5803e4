/**
 * `useMultiAudioPlayer` as a state machine over values: a record from id to
 * handle, never shrinking, and the id of the player last started.
 */
module MultiToggle {
  import opened Wrappers
  import opened Audio

  datatype State = State(players: map<string, HandleState>, playingId: Option<string>)

  function Initial(): (s: State)
    ensures Inv(s) && OnlyCurrentPlays(s)
    ensures s.players == map[] && s.playingId.None?
  {
    State(map[], None)
  }

  /** Nothing ever unloads a player, so every stored handle is loaded. */
  ghost predicate Inv(s: State)
  {
    forall k :: k in s.players ==> s.players[k].loaded
  }

  /** Only the player under `playingId` can be playing. */
  ghost predicate OnlyCurrentPlays(s: State)
  {
    forall k :: k in s.players && s.players[k].playing ==> s.playingId == Some(k)
  }

  /**
   * The guard `playingId && playingId !== id`: a JavaScript string is falsy
   * when empty, so a `playingId` of "" never counts as something to pause.
   */
  predicate PausesPrevious(s: State, id: string)
  {
    s.playingId.Some? && s.playingId.value != "" && s.playingId.value != id
  }

  /** The first step of `toggle`: pause the player under `playingId`, if the guard holds and one is stored. */
  function PausePrevious(s: State, id: string): (r: State)
    requires Inv(s)
    ensures Inv(r) && r.playingId == s.playingId && r.players.Keys == s.players.Keys
    ensures PausesPrevious(s, id) && s.playingId.value in s.players ==>
      !r.players[s.playingId.value].playing
    ensures forall k :: k in s.players && !(PausesPrevious(s, id) && s.playingId == Some(k)) ==>
      r.players[k] == s.players[k]
    ensures OnlyCurrentPlays(s) && PausesPrevious(s, id) ==>
      forall k :: k in r.players ==> !r.players[k].playing
  {
    if PausesPrevious(s, id) && s.playingId.value in s.players then
      var p := s.playingId.value;
      s.(players := s.players[p := Paused(s.players[p])])
    else s
  }

  /** `toggle` of a stored id: the player is paused when its status says playing, and played otherwise. */
  function ToggleStored(s: State, id: string): (r: State)
    requires Inv(s) && id in s.players
    ensures Inv(r) && r.players.Keys == s.players.Keys
    ensures r.players[id].playing == !s.players[id].playing
    ensures r.playingId == if s.players[id].playing then None else Some(id)
    ensures forall k :: k in s.players && k != id ==> r.players[k] == s.players[k]
  {
    var h := s.players[id];
    if StatusOf(h).isPlaying then s.(players := s.players[id := Paused(h)], playingId := None)
    else s.(players := s.players[id := Played(h)], playingId := Some(id))
  }

  /** `toggle` of a new id: store a new handle for the asset under `id`, play it and mark it current. */
  function AddPlaying(s: State, id: string, source: int): (r: State)
    requires Inv(s) && id !in s.players
    ensures Inv(r) && r.players.Keys == s.players.Keys + {id}
    ensures r.players[id] == HandleState(Asset(source), true, true) && r.playingId == Some(id)
    ensures forall k :: k in s.players ==> r.players[k] == s.players[k]
  {
    s.(players := s.players[id := Played(Created(Asset(source)))], playingId := Some(id))
  }

  /** `toggle(id, source)`; `createOk` is false when `createAsync` rejects. */
  function Toggle(s: State, id: string, source: int, createOk: bool): (r: State)
    requires Inv(s)
    ensures Inv(r)
    // entries are never lost, and at most one is added
    ensures r.players.Keys == s.players.Keys + (if id !in s.players && createOk then {id} else {})
    // handles under other keys are untouched, save the previous one being paused
    ensures forall k :: k in s.players && k != id && !(PausesPrevious(s, id) && s.playingId == Some(k)) ==>
      r.players[k] == s.players[k]
    ensures PausesPrevious(s, id) && s.playingId.value in s.players ==>
      !r.players[s.playingId.value].playing
    ensures id in s.players && s.players[id].playing ==> !r.players[id].playing && r.playingId.None?
    ensures id in s.players && !s.players[id].playing ==> r.players[id].playing && r.playingId == Some(id)
    ensures id !in s.players && createOk ==>
      r.players[id] == HandleState(Asset(source), true, true) && r.playingId == Some(id)
    ensures id !in s.players && !createOk ==> r.playingId == s.playingId
    ensures r.playingId.None? || r.playingId == Some(id) || (id !in s.players && !createOk)
  {
    var p := PausePrevious(s, id);
    if id in p.players then ToggleStored(p, id)
    else if createOk then AddPlaying(p, id, source)
    else p
  }

  /**
   * If only the current player can be playing before `toggle`, the same holds
   * after it, as long as the current id is not the empty string.
   */
  lemma ToggleKeepsOnlyCurrentPlaying(s: State, id: string, source: int, createOk: bool)
    requires Inv(s) && OnlyCurrentPlays(s)
    requires s.playingId != Some("") || id == ""
    ensures OnlyCurrentPlays(Toggle(s, id, source, createOk))
  {
  }

  /**
   * With a current id of "" the guard of `PausePrevious` is false, so starting another
   * id leaves two players playing at once.
   */
  lemma EmptyIdIsNeverPaused(other: string, a: int, b: int)
    requires other != ""
    ensures var s := Toggle(Toggle(Initial(), "", a, true), other, b, true);
            s.players[""].playing && s.players[other].playing && s.playingId == Some(other)
  {
  }

  /** Two toggles of a stored id restore its handle; the current id ends as `id` or none. */
  lemma ToggleTwiceRestoresHandle(s: State, id: string, source: int)
    requires Inv(s) && id in s.players
    ensures var r := Toggle(Toggle(s, id, source, true), id, source, true);
            r.players[id] == s.players[id] && r.players.Keys == s.players.Keys
            && r.playingId == (if s.players[id].playing then Some(id) else None)
  {
  }
}
