/** The collaborators the matchmaking core uses but does not define: the
    player record, the realtime transport that delivers events, and the
    battle simulator. Only what the core relies on is modelled. */
module Externals {
  import opened Wrappers

  /** A registered player. `nick` never changes; `id` is the transport
      connection id and changes on reconnect; `inGame` is set when the player
      is drawn into a game, and the core reads it as "still connected". */
  class Player {
    const nick: string
    var id: string
    var inGame: bool

    constructor (nick: string, id: string)
      ensures this.nick == nick && this.id == id && !inGame
    {
      this.nick := nick;
      this.id := id;
      inGame := false;
    }

    /** Same logical player, new connection id. */
    method Reconnect(id: string)
      modifies this
      ensures this.id == id && inGame == old(inGame)
    {
      this.id := id;
    }

    /** The player is no longer connected. */
    method Disconnect()
      modifies this
      ensures !inGame && id == old(id)
    {
      inGame := false;
    }

    /** The player leaves a finished game and may be matched again. */
    method ResetAfterGame()
      modifies this
      ensures !inGame && id == old(id)
    {
      inGame := false;
    }
  }

  /** The three server-to-client events of the core. */
  datatype Event = GameStarted | BattleStarted | GameResult

  /** One emitted event: `room` is the connection id it is addressed to
      (None broadcasts to every client); `logs` is present only on results. */
  datatype Emitted = Emitted(event: Event, room: Option<string>, message: string, logs: Option<string>)

  /** The realtime server, reduced to the record of what it was asked to send. */
  class Transport {
    var sent: seq<Emitted>

    constructor ()
      ensures sent == []
    {
      sent := [];
    }

    method Emit(e: Emitted)
      modifies this
      ensures sent == old(sent) + [e]
    {
      sent := sent + [e];
    }
  }

  /** What the battle simulator returns: result code, message and logs. */
  datatype BattleOutcome = BattleOutcome(result: int, message: string, logs: string)

  /** The battle simulator: a deterministic function of the two players and the seed. */
  type Engine = (Player, Player, int) -> BattleOutcome
}
