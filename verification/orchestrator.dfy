/** The registry and matchmaker: known players, the waiting room and the
    list of games created so far. */
module Orchestrator {
  import opened Wrappers
  import opened Search
  import opened Externals
  import opened Room
  import opened Session

  /** The nicknames of `ps`, in registry order. */
  function Nicks(ps: seq<Player>): (r: seq<string>)
    ensures |r| == |ps| && forall i :: 0 <= i < |ps| ==> r[i] == ps[i].nick
  {
    seq(|ps|, i requires 0 <= i < |ps| => ps[i].nick)
  }

  /** The connection ids of `ps`, in registry order. */
  function Ids(ps: seq<Player>): (r: seq<string>)
    reads ps
    ensures |r| == |ps| && forall i :: 0 <= i < |ps| ==> r[i] == ps[i].id
  {
    seq(|ps|, i requires 0 <= i < |ps| reads ps => ps[i].id)
  }

  /** No two registered players share a nickname. */
  ghost predicate NicksUnique(ps: seq<Player>)
  {
    forall i, j :: 0 <= i < j < |ps| ==> ps[i].nick != ps[j].nick
  }

  /** A game in which one of the two players has nickname `nick`. */
  predicate HasNick(g: Game, nick: string)
  {
    nick in [g.players.0.nick, g.players.1.nick]
  }

  class GameApp {
    var players: seq<Player>
    const waitingRoom: WaitingRoom
    var currentGames: seq<Game>
    const sio: Transport
    const engine: Engine

    ghost predicate Valid()
      reads this, waitingRoom
    {
      waitingRoom.Valid() && waitingRoom.capacity >= 2 && NicksUnique(players)
    }

    constructor (sio: Transport, engine: Engine)
      ensures Valid()
      ensures players == [] && currentGames == [] && this.sio == sio && this.engine == engine
      ensures fresh(waitingRoom) && waitingRoom.players == {} && waitingRoom.capacity == 2
    {
      players := [];
      waitingRoom := new WaitingRoom(2);
      currentGames := [];
      this.sio := sio;
      this.engine := engine;
    }

    /** The first registered player with nickname `nick`, or None. */
    function GetPlayerByNick(nick: string): (r: Option<Player>)
      reads this
      ensures r.None? <==> forall i :: 0 <= i < |players| ==> players[i].nick != nick
      ensures r.Some? ==> exists i :: 0 <= i < |players| && players[i] == r.value && r.value.nick == nick &&
                            forall j :: 0 <= j < i ==> players[j].nick != nick
    {
      match FirstIndexOf(Nicks(players), nick)
      case None => None
      case Some(i) =>
        assert forall j :: 0 <= j < i ==> Nicks(players)[..i][j] == players[j].nick;
        Some(players[i])
    }

    /** The first registered player whose connection id is `id`, or None. */
    function GetPlayerById(id: string): (r: Option<Player>)
      reads this, players
      ensures r.None? <==> forall i :: 0 <= i < |players| ==> players[i].id != id
      ensures r.Some? ==> exists i :: 0 <= i < |players| && players[i] == r.value && r.value.id == id &&
                            forall j :: 0 <= j < i ==> players[j].id != id
    {
      match FirstIndexOf(Ids(players), id)
      case None => None
      case Some(i) =>
        assert forall j :: 0 <= j < i ==> Ids(players)[..i][j] == players[j].id;
        Some(players[i])
    }

    /** The most recently created game with a player named `nick`, or None. */
    function GetPlayerGame(nick: string): (r: Option<Game>)
      reads this
      ensures r.None? <==> forall i :: 0 <= i < |currentGames| ==> !HasNick(currentGames[i], nick)
      ensures r.Some? ==> exists i :: 0 <= i < |currentGames| && currentGames[i] == r.value && HasNick(r.value, nick) &&
                            forall j :: i < j < |currentGames| ==> !HasNick(currentGames[j], nick)
    {
      var games := Filter(currentGames, g => HasNick(g, nick));
      FilterLastIsLastMatch(currentGames, g => HasNick(g, nick));
      if |games| > 0 then Some(games[|games| - 1]) else None
    }

    /** Registers `nick`, or reconnects the player already registered with it. */
    method AddPlayer(nick: string, id: string) returns (player: Player)
      requires Valid()
      modifies this, waitingRoom, players
      ensures Valid()
      ensures currentGames == old(currentGames)
      ensures player.nick == nick && player.id == id
      ensures old(GetPlayerByNick(nick)).Some? ==>
                player == old(GetPlayerByNick(nick)).value && players == old(players) &&
                waitingRoom.players == old(waitingRoom.players)
      ensures old(GetPlayerByNick(nick)).None? ==>
                fresh(player) && !player.inGame && players == old(players) + [player] &&
                waitingRoom.players == Joined(old(waitingRoom.players), waitingRoom.capacity, player)
      ensures forall p :: p in old(players) ==> p.inGame == old(p.inGame)
      ensures forall p :: p in old(players) && p != player ==> p.id == old(p.id)
    {
      var existing := GetPlayerByNick(nick);
      if existing.Some? {
        existing.value.Reconnect(id);
        return existing.value;
      }
      player := new Player(nick, id);
      players := players + [player];
      waitingRoom.Join(player);
    }

    method DisconnectPlayer(player: Player)
      requires Valid()
      modifies player, waitingRoom
      ensures Valid()
      ensures !player.inGame && player.id == old(player.id)
      ensures waitingRoom.players == old(waitingRoom.players) - {player}
    {
      player.Disconnect();
      waitingRoom.Leave(player);
    }

    /** One pass of the matchmaking loop: when the waiting room is full, draw
        two players, create their game, record it and notify them. */
    method StartGamesTick()
      requires Valid()
      modifies this, waitingRoom, waitingRoom.players, sio
      ensures Valid()
      ensures players == old(players)
      ensures forall p :: p in old(waitingRoom.players) ==> p.id == old(p.id)
      ensures !old(waitingRoom.IsFull()) ==>
                currentGames == old(currentGames) && waitingRoom.players == old(waitingRoom.players) &&
                sio.sent == old(sio.sent) &&
                forall p :: p in old(waitingRoom.players) ==> p.inGame == old(p.inGame)
      ensures old(waitingRoom.IsFull()) ==>
                && |currentGames| == |old(currentGames)| + 1
                && currentGames[..|old(currentGames)|] == old(currentGames)
                && var g := currentGames[|currentGames| - 1];
                && fresh(g) && g.sio == sio && g.engine == engine
                && g.players.0 != g.players.1
                && g.players.0 in old(waitingRoom.players) && g.players.1 in old(waitingRoom.players)
                && waitingRoom.players == old(waitingRoom.players) - {g.players.0, g.players.1}
                && g.players.0.inGame && g.players.1.inGame
                && (forall p :: p in old(waitingRoom.players) && p != g.players.0 && p != g.players.1 ==>
                      p.inGame == old(p.inGame))
                && !g.isFinished && g.ready == InitialReadiness(g.players.0.id, g.players.1.id)
                && sio.sent == old(sio.sent) + GameStartedNotices(g.Seats())
    {
      if waitingRoom.IsFull() {
        var pair := waitingRoom.DrawTwoPlayersToGame();
        var game := new Game(sio, engine, pair);
        currentGames := currentGames + [game];
        assert game.AllPlayersConnected() by {
          assert game.Seats()[0].inGame && game.Seats()[1].inGame;
        }
        game.SetOnGameStarted();
      }
    }
  }
}
