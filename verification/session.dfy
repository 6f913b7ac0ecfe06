/** One match between two drawn players: the readiness state machine, the
    battle and the result notifications. */
module Session {
  import opened Wrappers
  import opened Externals

  /** The fixed seed the battle simulator is run with. */
  const BattleSeed := 17
  const GameStartedText := "game started"
  const WalkoverText := "Player disconnected, walkover"

  /** The two readiness signals: UNITS_READY sets `units`, SCORE sets `quiz`. */
  datatype Kind = Units | Quiz

  datatype Flags = Flags(units: bool, quiz: bool)

  const NotReady := Flags(false, false)

  function Flag(f: Flags, kind: Kind): bool
  {
    match kind
    case Units => f.units
    case Quiz => f.quiz
  }

  predicate Complete(f: Flags)
  {
    f.units && f.quiz
  }

  /** The battle gate: every flag of every entry is set. */
  predicate AllReady(ready: map<string, Flags>)
  {
    forall id :: id in ready ==> Complete(ready[id])
  }

  /** The readiness map of a new game: one entry per player id, no flag set. */
  function InitialReadiness(id0: string, id1: string): (r: map<string, Flags>)
    ensures r.Keys == {id0, id1}
    ensures forall id, q :: id in r ==> !Flag(r[id], q)
  {
    map[id0 := NotReady, id1 := NotReady]
  }

  /** The readiness map after a signal of `kind` from connection `sid`, for a
      game whose players have ids `id0` and `id1`: a stray sid changes
      nothing; a player's sid raises exactly that player's flag of that kind. */
  function Record(ready: map<string, Flags>, id0: string, id1: string, sid: string, kind: Kind): (r: map<string, Flags>)
    requires id0 in ready && id1 in ready
    ensures r.Keys == ready.Keys
    ensures forall id, q :: id in r ==>
              (Flag(r[id], q) <==> Flag(ready[id], q) || (id == sid && q == kind && (sid == id0 || sid == id1)))
  {
    if !(id0 == sid || id1 == sid) then ready
    else
      var playerId := if id0 == sid then id0 else id1;
      var f := ready[playerId];
      ready[playerId := match kind case Units => f.(units := true) case Quiz => f.(quiz := true)]
  }

  /** The readiness map after a sequence of signals, processed in order. */
  function Replay(ready: map<string, Flags>, id0: string, id1: string, signals: seq<(string, Kind)>): (r: map<string, Flags>)
    requires id0 in ready && id1 in ready
    ensures r.Keys == ready.Keys
  {
    if signals == [] then ready
    else
      var last := signals[|signals| - 1];
      Record(Replay(ready, id0, id1, signals[..|signals| - 1]), id0, id1, last.0, last.1)
  }

  /** After any sequence of signals a flag is set exactly when it was set
      before or some signal of that kind came from that player's id. */
  lemma {:induction false} ReplayFlags(ready: map<string, Flags>, id0: string, id1: string, signals: seq<(string, Kind)>)
    requires id0 in ready && id1 in ready
    ensures forall id, q :: id in ready ==>
              (Flag(Replay(ready, id0, id1, signals)[id], q) <==>
                 Flag(ready[id], q) || ((id, q) in signals && (id == id0 || id == id1)))
  {
    if signals != [] {
      var init := signals[..|signals| - 1];
      ReplayFlags(ready, id0, id1, init);
      assert signals == init + [signals[|signals| - 1]];
    }
  }

  /** From a new game, the battle gate opens exactly when both players have
      sent both signals, in whatever order and interleaving. */
  lemma GateOpensAfterAllFourSignals(id0: string, id1: string, signals: seq<(string, Kind)>)
    ensures AllReady(Replay(InitialReadiness(id0, id1), id0, id1, signals)) <==>
              (id0, Units) in signals && (id0, Quiz) in signals && (id1, Units) in signals && (id1, Quiz) in signals
  {
    var start := InitialReadiness(id0, id1);
    ReplayFlags(start, id0, id1, signals);
    var r := Replay(start, id0, id1, signals);
    assert r.Keys == {id0, id1};
    assert AllReady(r) <==> Complete(r[id0]) && Complete(r[id1]);
    assert Complete(r[id0]) <==> Flag(r[id0], Units) && Flag(r[id0], Quiz);
    assert Complete(r[id1]) <==> Flag(r[id1], Units) && Flag(r[id1], Quiz);
  }

  /** The gate opens on the signal that raises the last missing flag: before
      it, every other flag was already set. */
  lemma FiresOnLastMissingFlag(ready: map<string, Flags>, id0: string, id1: string, sid: string, kind: Kind)
    requires id0 in ready && id1 in ready
    requires !AllReady(ready) && AllReady(Record(ready, id0, id1, sid, kind))
    ensures (sid == id0 || sid == id1) && !Flag(ready[sid], kind)
    ensures forall id, q :: id in ready && (id, q) != (sid, kind) ==> Flag(ready[id], q)
  {
    var r := Record(ready, id0, id1, sid, kind);
    var id :| id in ready && !Complete(ready[id]);
    var missing := if !ready[id].units then Units else Quiz;
    assert !Flag(ready[id], missing);
    assert Complete(r[id]) && Flag(r[id], missing);
    forall id', q | id' in ready && (id', q) != (sid, kind) ensures Flag(ready[id'], q) {
      assert Complete(r[id']);
      assert Flag(r[id'], q);
    }
  }

  /** Nothing stops the gate from opening again: once every flag is set,
      any further signal from either player opens it once more. */
  lemma RepeatedSignalReopensGate(ready: map<string, Flags>, id0: string, id1: string, sid: string, kind: Kind)
    requires id0 in ready && id1 in ready
    requires AllReady(ready) && (sid == id0 || sid == id1)
    ensures AllReady(Record(ready, id0, id1, sid, kind))
  {
    var r := Record(ready, id0, id1, sid, kind);
    forall id | id in r ensures Complete(r[id]) {
      assert Complete(ready[id]);
      assert Flag(r[id], Units) && Flag(r[id], Quiz);
    }
  }

  /** The GAME_RESULT events sent to the players of `ps` that are still in
      game, in seat order. */
  function GameResults(ps: seq<Player>, message: string, logs: string): (r: seq<Emitted>)
    reads ps
  {
    if ps == [] then []
    else
      var last := ps[|ps| - 1];
      GameResults(ps[..|ps| - 1], message, logs)
        + (if last.inGame then [Emitted(GameResult, Some(last.id), message, Some(logs))] else [])
  }

  /** Results reach exactly the players still in game, carry the given
      message and logs, and nothing else is sent. */
  lemma {:induction false} GameResultsOnlyToPlayersInGame(ps: seq<Player>, message: string, logs: string)
    ensures forall e :: e in GameResults(ps, message, logs) ==>
              e.event == GameResult && e.message == message && e.logs == Some(logs) &&
              exists i :: 0 <= i < |ps| && ps[i].inGame && e.room == Some(ps[i].id)
    ensures forall i :: 0 <= i < |ps| && ps[i].inGame ==>
              Emitted(GameResult, Some(ps[i].id), message, Some(logs)) in GameResults(ps, message, logs)
    ensures |GameResults(ps, message, logs)| <= |ps|
  {
    if ps != [] {
      var init := ps[..|ps| - 1];
      GameResultsOnlyToPlayersInGame(init, message, logs);
      assert forall i :: 0 <= i < |init| ==> init[i] == ps[i];
    }
  }

  /** For the two seats of a game: the first player's result (if still in
      game) comes before the second player's (if still in game). */
  lemma ResultsOfTwoSeats(p0: Player, p1: Player, message: string, logs: string)
    ensures GameResults([p0, p1], message, logs) ==
              (if p0.inGame then [Emitted(GameResult, Some(p0.id), message, Some(logs))] else [])
              + (if p1.inGame then [Emitted(GameResult, Some(p1.id), message, Some(logs))] else [])
  {
    var one := if p0.inGame then [Emitted(GameResult, Some(p0.id), message, Some(logs))] else [];
    assert [p0, p1][..1] == [p0];
    assert [p0][..0] == [];
    assert GameResults([p0], message, logs) == GameResults([], message, logs) + one;
  }

  /** The private GAME_STARTED notices, one per player in seat order. */
  function GameStartedNotices(ps: seq<Player>): (r: seq<Emitted>)
    reads ps
    ensures |r| == |ps|
    ensures forall i :: 0 <= i < |ps| ==> r[i] == Emitted(GameStarted, Some(ps[i].id), GameStartedText, None)
  {
    if ps == [] then []
    else
      var last := ps[|ps| - 1];
      GameStartedNotices(ps[..|ps| - 1]) + [Emitted(GameStarted, Some(last.id), GameStartedText, None)]
  }

  class Game {
    const sio: Transport
    const engine: Engine
    const players: (Player, Player)
    var isFinished: bool
    var ready: map<string, Flags>

    /** The two players, in seat order. */
    function Seats(): seq<Player>
    {
      [players.0, players.1]
    }

    /** The readiness map is keyed by the players' current ids: neither
        player has reconnected with a new id since the game was created. */
    ghost predicate KeysMatchIds()
      reads this, players.0, players.1
    {
      ready.Keys == {players.0.id, players.1.id}
    }

    function Outcome(): BattleOutcome
    {
      engine(players.0, players.1, BattleSeed)
    }

    function BattleStartedNotice(): Emitted
    {
      Emitted(BattleStarted, None, "Battle between " + players.0.nick + " and " + players.1.nick + " started!", None)
    }

    /** What a battle does: announce it to everybody, send the simulator's
        result to the players still in game, reset both players, finish. */
    twostate predicate BattleRan()
      reads this, sio, players.0, players.1
    {
      && isFinished
      && sio.sent == old(sio.sent) + [BattleStartedNotice()]
                       + old(GameResults(Seats(), Outcome().message, Outcome().logs))
      && !players.0.inGame && !players.1.inGame
      && players.0.id == old(players.0.id) && players.1.id == old(players.1.id)
    }

    /** Nothing but the readiness map may have changed. */
    twostate predicate Quiet()
      reads this, sio, players.0, players.1
    {
      isFinished == old(isFinished) && sio.sent == old(sio.sent) && unchanged(players.0, players.1)
    }

    constructor (sio: Transport, engine: Engine, players: (Player, Player))
      ensures this.sio == sio && this.engine == engine && this.players == players
      ensures !isFinished
      ensures ready == InitialReadiness(players.0.id, players.1.id)
      ensures KeysMatchIds()
    {
      this.sio := sio;
      this.engine := engine;
      this.players := players;
      isFinished := false;
      ready := map[players.0.id := NotReady, players.1.id := NotReady];
    }

    /** A readiness signal of `kind` from connection `sid` (the SCORE and
        UNITS_READY handlers). */
    method SaveWhatIsReady(sid: string, kind: Kind)
      requires KeysMatchIds()
      modifies this, sio, players.0, players.1
      ensures KeysMatchIds()
      ensures ready == Record(old(ready), old(players.0.id), old(players.1.id), sid, kind)
      ensures if old(players.0.id == sid || players.1.id == sid) && AllReady(ready) then BattleRan() else Quiet()
    {
      if !(players.0.id == sid || players.1.id == sid) {
        return;
      }
      var playerId := if players.0.id == sid then players.0.id else players.1.id;
      var f := ready[playerId];
      ready := ready[playerId := match kind case Units => f.(units := true) case Quiz => f.(quiz := true)];
      StartGameIfReady();
    }

    /** Runs the battle exactly when every readiness flag is set. */
    method StartGameIfReady()
      modifies this, sio, players.0, players.1
      ensures ready == old(ready)
      ensures if old(AllReady(ready)) then BattleRan() else Quiet()
    {
      var allReady := CheckAllReady();
      if !allReady {
        return;
      }
      Battle();
    }

    /** The scan over every entry's flags that decides whether to battle. */
    method CheckAllReady() returns (allReady: bool)
      ensures allReady <==> AllReady(ready)
    {
      var pending := ready.Keys;
      while pending != {}
        invariant pending <= ready.Keys
        invariant forall id :: id in ready && id !in pending ==> Complete(ready[id])
        decreases pending
      {
        var id :| id in pending;
        if !(ready[id].units && ready[id].quiz) {
          return false;
        }
        pending := pending - {id};
      }
      return true;
    }

    method Battle()
      modifies this, sio, players.0, players.1
      ensures ready == old(ready)
      ensures BattleRan()
    {
      sio.Emit(BattleStartedNotice());
      var outcome := engine(players.0, players.1, BattleSeed);
      EndGameForPlayers(outcome.message, outcome.logs);
      isFinished := true;
    }

    /** Sends the results, then resets both players. */
    method EndGameForPlayers(message: string, logs: string)
      modifies sio, players.0, players.1
      ensures sio.sent == old(sio.sent) + old(GameResults(Seats(), message, logs))
      ensures !players.0.inGame && !players.1.inGame
      ensures players.0.id == old(players.0.id) && players.1.id == old(players.1.id)
    {
      SendGameResults(message, logs);
      var seats := Seats();
      for i := 0 to 2
        invariant forall j :: 0 <= j < i ==> !seats[j].inGame
        invariant players.0.id == old(players.0.id) && players.1.id == old(players.1.id)
        invariant sio.sent == old(sio.sent) + old(GameResults(Seats(), message, logs))
      {
        seats[i].ResetAfterGame();
      }
    }

    /** Both players are still connected. */
    predicate AllPlayersConnected()
      reads players.0, players.1
      ensures AllPlayersConnected() <==> players.0.inGame && players.1.inGame
    {
      forall p :: p in Seats() ==> p.inGame
    }

    /** Called once right after the game is created: notify both players
        privately if both are connected, otherwise declare a walkover to the
        ones still connected; the battle is not run here. */
    method SetOnGameStarted()
      modifies sio
      ensures AllPlayersConnected() ==> sio.sent == old(sio.sent) + GameStartedNotices(Seats())
      ensures !AllPlayersConnected() ==> sio.sent == old(sio.sent) + GameResults(Seats(), WalkoverText, "")
    {
      if AllPlayersConnected() {
        var seats := Seats();
        for i := 0 to 2
          invariant sio.sent == old(sio.sent) + GameStartedNotices(seats[..i])
        {
          sio.Emit(Emitted(GameStarted, Some(seats[i].id), GameStartedText, None));
          assert seats[..i + 1][..i] == seats[..i];
        }
        assert seats[..2] == seats;
      } else {
        SendGameResults(WalkoverText, "");
      }
    }

    /** Sends GAME_RESULT to each player that is still in game. */
    method SendGameResults(message: string, logs: string)
      modifies sio
      ensures sio.sent == old(sio.sent) + GameResults(Seats(), message, logs)
    {
      var seats := Seats();
      for i := 0 to 2
        invariant sio.sent == old(sio.sent) + GameResults(seats[..i], message, logs)
      {
        var p := seats[i];
        if p.inGame {
          sio.Emit(Emitted(GameResult, Some(p.id), message, Some(logs)));
        }
        assert seats[..i + 1][..i] == seats[..i];
      }
      assert seats[..2] == seats;
    }
  }
}
