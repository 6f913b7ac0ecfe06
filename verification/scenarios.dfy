/** Whole-session runs, proved from the contracts of the core alone. */
module Scenarios {
  import opened Wrappers
  import opened Externals
  import opened Room
  import opened Session
  import opened Orchestrator

  /** The four readiness signals arrive interleaved (first player: units then
      score; second player: score then units); the last one runs the battle,
      and both players get the same result. */
  method ReadyInterleaved(g: Game)
    requires g.KeysMatchIds() && g.players.0.id != g.players.1.id
    requires g.ready == InitialReadiness(g.players.0.id, g.players.1.id)
    requires g.players.0.inGame && g.players.1.inGame
    modifies g, g.sio, g.players.0, g.players.1
    ensures g.isFinished && !g.players.0.inGame && !g.players.1.inGame
    ensures g.players.0.id == old(g.players.0.id) && g.players.1.id == old(g.players.1.id)
    ensures g.sio.sent == old(g.sio.sent) + [g.BattleStartedNotice()]
              + [Emitted(GameResult, Some(g.players.0.id), g.Outcome().message, Some(g.Outcome().logs)),
                 Emitted(GameResult, Some(g.players.1.id), g.Outcome().message, Some(g.Outcome().logs))]
  {
    var id0, id1 := g.players.0.id, g.players.1.id;
    g.SaveWhatIsReady(id0, Units);
    assert !AllReady(g.ready) by { assert !Complete(g.ready[id1]); }
    g.SaveWhatIsReady(id0, Quiz);
    assert !AllReady(g.ready) by { assert !Complete(g.ready[id1]); }
    g.SaveWhatIsReady(id1, Quiz);
    assert !AllReady(g.ready) by { assert !Flag(g.ready[id1], Units); }
    ResultsOfTwoSeats(g.players.0, g.players.1, g.Outcome().message, g.Outcome().logs);
    g.SaveWhatIsReady(id1, Units);
    assert AllReady(g.ready) by {
      GateOpensAfterAllFourSignals(id0, id1, [(id0, Units), (id0, Quiz), (id1, Quiz), (id1, Units)]);
    }
  }

  /** Two players with different nicknames register with a new registry:
      both are enrolled in its waiting room, which is then full. */
  method RegisterTwo(engine: Engine) returns (app: GameApp, a: Player, b: Player)
    ensures fresh(app) && fresh(app.sio) && fresh(app.waitingRoom) && fresh(a) && fresh(b)
    ensures app.Valid() && app.engine == engine
    ensures app.players == [a, b] && app.currentGames == [] && app.sio.sent == []
    ensures app.waitingRoom.players == {a, b} && app.waitingRoom.IsFull()
    ensures a.nick == "alice" && a.id == "sid-a" && b.nick == "bob" && b.id == "sid-b"
  {
    var sio := new Transport();
    app := new GameApp(sio, engine);
    a := app.AddPlayer("alice", "sid-a");
    assert app.players == [a];
    assert app.GetPlayerByNick("bob").None? by {
      assert "alice"[0] != "bob"[0];
    }
    assert |app.waitingRoom.players| == 1;
    b := app.AddPlayer("bob", "sid-b");
    assert app.waitingRoom.players == {a, b};
  }

  /** Two players register and one matchmaking pass pairs them: each is told
      privately that the game started; then they play it out. */
  method FullMatch(engine: Engine) returns (sent: seq<Emitted>, finished: bool, aInGame: bool, bInGame: bool)
    ensures finished && !aInGame && !bInGame
    ensures |sent| == 5
    ensures sent[0].event == GameStarted && sent[1].event == GameStarted && sent[2].event == BattleStarted
    ensures {sent[0].room, sent[1].room} == {Some("sid-a"), Some("sid-b")}
    ensures sent[3].event == GameResult && sent[4].event == GameResult
    ensures {sent[3].room, sent[4].room} == {Some("sid-a"), Some("sid-b")}
    ensures sent[3].message == sent[4].message && sent[3].logs == sent[4].logs
  {
    var app, a, b := RegisterTwo(engine);
    app.StartGamesTick();
    var g := app.currentGames[0];
    assert {g.players.0, g.players.1} == {a, b};
    assert g.players.0.id != g.players.1.id by {
      assert "sid-a"[4] != "sid-b"[4];
    }
    ReadyInterleaved(g);
    sent, finished, aInGame, bInGame := app.sio.sent, g.isFinished, a.inGame, b.inGame;
  }

  /** A player drops between the draw and the match notice: only the player
      still connected is told, with the walkover message and empty logs. */
  method Walkover(engine: Engine) returns (sent: seq<Emitted>, finished: bool)
    ensures !finished
    ensures sent == [Emitted(GameResult, Some("sid-a"), WalkoverText, Some(""))]
  {
    var sio := new Transport();
    var room := new WaitingRoom(2);
    var a := new Player("alice", "sid-a");
    var b := new Player("bob", "sid-b");
    room.Join(a);
    assert room.players == {a};
    room.Join(b);
    assert room.players == {a, b};
    var pair := room.DrawTwoPlayersToGame();
    assert a.inGame;
    b.Disconnect();
    var g := new Game(sio, engine, pair);
    assert !g.AllPlayersConnected() by {
      assert b == g.Seats()[0] || b == g.Seats()[1];
    }
    g.SetOnGameStarted();
    ResultsOfTwoSeats(pair.0, pair.1, WalkoverText, "");
    sent, finished := sio.sent, g.isFinished;
  }
}
