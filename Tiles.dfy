/**
 * The quick-settings tile controller: a local flag `isPartyTime` that a click
 * flips optimistically, a tile whose state and label mirror the flag, and a
 * start or stop command sent to the party service. The tile (`qsTile`) may be
 * absent; whether starting the foreground service throws is a parameter.
 */
module Tiles {
  import opened Wrappers
  import Service

  datatype TileState = StateInactive | StateActive

  const PartyOnLabel: string := "PARTY ON! \U{1F389}"
  const PartyTimeLabel: string := "Party Time?"

  /** The state and label a tile shows. */
  datatype TileFace = TileFace(state: TileState, labelText: string)

  datatype TileEffect =
    | UpdateTile(face: TileFace)                        // qsTile.updateTile()
    | StartForegroundService(command: Service.Command)  // may throw
    | StartService(command: Service.Command)

  /** The face for a flag: active with the party label exactly when it is party time. */
  function FaceFor(partyTime: bool): (f: TileFace)
    ensures f.state == StateActive <==> partyTime
    ensures f.labelText == PartyOnLabel <==> partyTime
    ensures f.labelText == PartyTimeLabel <==> !partyTime
  {
    if partyTime then TileFace(StateActive, PartyOnLabel) else TileFace(StateInactive, PartyTimeLabel)
  }

  /** The controller's flag and what its tile (if any) shows. */
  datatype TileModel = TileModel(isPartyTime: bool, tile: Option<TileFace>)

  datatype Outcome = Outcome(next: TileModel, effects: seq<TileEffect>)

  /** The tile update for the current flag, pushed only when a tile exists. */
  function Refresh(m: TileModel): (r: Outcome)
    ensures r.next.isPartyTime == m.isPartyTime
    ensures r.next.tile == if m.tile.Some? then Some(FaceFor(m.isPartyTime)) else None
    ensures r.effects == if m.tile.Some? then [UpdateTile(FaceFor(m.isPartyTime))] else []
  {
    match m.tile
    case None => Outcome(m, [])
    case Some(_) =>
      var face := FaceFor(m.isPartyTime);
      Outcome(m.(tile := Some(face)), [UpdateTile(face)])
  }

  /** The push of the face for `partyTime`, made only when the tile exists. */
  function Push(m: TileModel, partyTime: bool): (r: seq<TileEffect>)
    ensures |r| <= 1
    ensures r != [] <==> m.tile.Some?
    ensures r == Refresh(m.(isPartyTime := partyTime)).effects
  {
    if m.tile.Some? then [UpdateTile(FaceFor(partyTime))] else []
  }

  /** Raise the flag, show it, then ask for the service; a failed start lowers the flag and shows that. */
  function Start(m: TileModel, started: bool): (r: Outcome)
    ensures r.next.isPartyTime == started
    ensures r.next.tile.Some? == m.tile.Some?
    ensures r.next.tile.Some? ==> r.next.tile.value == FaceFor(started)
    ensures StartForegroundService(Service.ActionStartParty) in r.effects
    ensures forall e :: e in r.effects ==> !e.StartService?
    ensures r.effects == Push(m, true) + [StartForegroundService(Service.ActionStartParty)]
                         + (if started then [] else Push(m, false))
  {
    var shown := Refresh(m.(isPartyTime := true));
    var sent := shown.effects + [StartForegroundService(Service.ActionStartParty)];
    if started then Outcome(shown.next, sent)
    else
      var reverted := Refresh(shown.next.(isPartyTime := false));
      Outcome(reverted.next, sent + reverted.effects)
  }

  /** Lower the flag, show it, then ask the service to stop. There is no failure path. */
  function Stop(m: TileModel): (r: Outcome)
    ensures !r.next.isPartyTime
    ensures r.next.tile.Some? == m.tile.Some?
    ensures r.next.tile.Some? ==> r.next.tile.value == FaceFor(false)
    ensures |r.effects| > 0 && r.effects[|r.effects| - 1] == StartService(Service.ActionStopParty)
    ensures forall e :: e in r.effects ==> !e.StartForegroundService?
    ensures r.effects == Push(m, false) + [StartService(Service.ActionStopParty)]
  {
    var shown := Refresh(m.(isPartyTime := false));
    Outcome(shown.next, shown.effects + [StartService(Service.ActionStopParty)])
  }

  /**
   * `onClick`. Party time or not, the new flag is "it was not party time and
   * the service started"; a present tile shows the new flag; an absent tile
   * gets no update, but the flag changes all the same.
   */
  function Click(m: TileModel, started: bool): (r: Outcome)
    ensures r.next.isPartyTime == (!m.isPartyTime && started)
    ensures r.next.tile.Some? == m.tile.Some?
    ensures r.next.tile.Some? ==> r.next.tile.value == FaceFor(r.next.isPartyTime)
    ensures m.tile.None? ==> forall e :: e in r.effects ==> !e.UpdateTile?
    ensures m.isPartyTime ==> StartService(Service.ActionStopParty) in r.effects
    ensures !m.isPartyTime ==> StartForegroundService(Service.ActionStartParty) in r.effects
    ensures m.isPartyTime ==> r.effects == Push(m, false) + [StartService(Service.ActionStopParty)]
    ensures !m.isPartyTime ==> r.effects == Push(m, true) + [StartForegroundService(Service.ActionStartParty)]
                                            + (if started then [] else Push(m, false))
  {
    if m.isPartyTime then Stop(m) else Start(m, started)
  }

  /** A sequence of clicks; `starts[i]` says whether the i-th click's service start (if any) succeeds. */
  function Clicks(m: TileModel, starts: seq<bool>): (r: TileModel)
    decreases |starts|
  {
    if starts == [] then m else Clicks(Click(m, starts[0]).next, starts[1..])
  }

  /** When the service starts, two clicks give back the flag and, if there is a tile, its face for that flag. */
  lemma ClickTwiceRestores(m: TileModel)
    ensures var twice := Click(Click(m, true).next, true).next;
            && twice.isPartyTime == m.isPartyTime
            && twice.tile == if m.tile.Some? then Some(FaceFor(m.isPartyTime)) else None
  {
  }

  /** After at least one click, a present tile always shows the controller's flag. */
  lemma {:induction false} TileMirrorsFlag(m: TileModel, starts: seq<bool>)
    requires |starts| > 0 || m.tile.None? || m.tile == Some(FaceFor(m.isPartyTime))
    ensures Clicks(m, starts).tile.Some? == m.tile.Some?
    ensures Clicks(m, starts).tile.Some? ==> Clicks(m, starts).tile.value == FaceFor(Clicks(m, starts).isPartyTime)
    decreases |starts|
  {
    if starts != [] {
      TileMirrorsFlag(Click(m, starts[0]).next, starts[1..]);
    }
  }

  /** If every start fails, no number of clicks leaves the flag raised. */
  lemma {:induction false} FailingStartsNeverParty(m: TileModel, starts: seq<bool>)
    requires |starts| > 0 && forall i :: 0 <= i < |starts| ==> !starts[i]
    ensures !Clicks(m, starts).isPartyTime
    decreases |starts|
  {
    if |starts| > 1 {
      FailingStartsNeverParty(Click(m, starts[0]).next, starts[1..]);
    }
  }

  /** The system's tile object, whose fields the controller sets in place. */
  class Tile {
    var state: TileState
    var labelText: string

    constructor (state: TileState, labelText: string)
      ensures this.state == state && this.labelText == labelText
    {
      this.state := state;
      this.labelText := labelText;
    }
  }

  class PartyMonsterTileService {
    var isPartyTime: bool
    const qsTile: Tile?
    /** Tile updates pushed and service commands sent so far. */
    ghost var log: seq<TileEffect>

    function Model(): TileModel
      reads this, qsTile
    {
      TileModel(isPartyTime, if qsTile == null then None else Some(TileFace(qsTile.state, qsTile.labelText)))
    }

    constructor (qsTile: Tile?)
      ensures !isPartyTime && this.qsTile == qsTile && log == []
    {
      isPartyTime := false;
      this.qsTile := qsTile;
      log := [];
    }

    /** `onStartListening`: show the current flag on the tile. */
    method OnStartListening()
      modifies this`log, qsTile
      ensures Model() == Refresh(old(Model())).next
      ensures log == old(log) + Refresh(old(Model())).effects
    {
      UpdateTileState();
    }

    /** `onClick`; `started` says whether `startForegroundService` returns normally. */
    method OnClick(started: bool)
      modifies this, qsTile
      ensures Model() == Click(old(Model()), started).next
      ensures log == old(log) + Click(old(Model()), started).effects
    {
      if isPartyTime {
        StopParty();
      } else {
        StartParty(started);
      }
    }

    method StartParty(started: bool)
      modifies this, qsTile
      ensures Model() == Start(old(Model()), started).next
      ensures log == old(log) + Start(old(Model()), started).effects
    {
      ghost var shown := Refresh(Model().(isPartyTime := true));
      ghost var log0 := log;
      isPartyTime := true;
      UpdateTileState();
      log := log + [StartForegroundService(Service.ActionStartParty)];
      assert Model() == shown.next && log == log0 + (shown.effects + [StartForegroundService(Service.ActionStartParty)]);
      if !started {
        isPartyTime := false;
        UpdateTileState();
      }
    }

    method StopParty()
      modifies this, qsTile
      ensures Model() == Stop(old(Model())).next
      ensures log == old(log) + Stop(old(Model())).effects
    {
      isPartyTime := false;
      UpdateTileState();
      log := log + [StartService(Service.ActionStopParty)];
    }

    /** `updateTileState`: set the tile's state and labelText from the flag and push it. */
    method UpdateTileState()
      modifies this`log, qsTile
      ensures Model() == Refresh(old(Model())).next
      ensures log == old(log) + Refresh(old(Model())).effects
      ensures qsTile != null ==> qsTile.state == (if isPartyTime then StateActive else StateInactive)
      ensures qsTile != null ==> qsTile.labelText == (if isPartyTime then PartyOnLabel else PartyTimeLabel)
    {
      if qsTile != null {
        qsTile.state := if isPartyTime then StateActive else StateInactive;
        qsTile.labelText := if isPartyTime then PartyOnLabel else PartyTimeLabel;
        log := log + [UpdateTile(TileFace(qsTile.state, qsTile.labelText))];
      }
    }
  }
}
