/** The waiting room: a capacity-bounded pool of players waiting to be
    matched. */
module Room {
  import opened Externals

  /** The membership after a join: the player is added only when the room is
      not full and the player is not already a member. */
  function Joined(members: set<Player>, capacity: nat, p: Player): (r: set<Player>)
    ensures r == members || r == members + {p}
    ensures p in r <==> p in members || |members| != capacity
    ensures |members| <= capacity ==> |r| <= capacity
  {
    if |members| != capacity && p !in members then members + {p} else members
  }

  /** Joining twice is the same as joining once. */
  lemma JoinIdempotent(members: set<Player>, capacity: nat, p: Player)
    ensures Joined(Joined(members, capacity, p), capacity, p) == Joined(members, capacity, p)
  {
  }

  class WaitingRoom {
    var players: set<Player>
    const capacity: nat

    /** The room never holds more players than its capacity. */
    ghost predicate Valid()
      reads this
    {
      |players| <= capacity
    }

    constructor (capacity: nat)
      ensures Valid() && players == {} && this.capacity == capacity
    {
      players := {};
      this.capacity := capacity;
    }

    function IsFull(): (r: bool)
      reads this
      ensures Valid() && !r ==> |players| < capacity
      ensures r && capacity >= 2 ==> |players| >= 2
    {
      |players| == capacity
    }

    method Join(player: Player)
      requires Valid()
      modifies this
      ensures Valid()
      ensures players == Joined(old(players), capacity, player)
    {
      if !IsFull() && player !in players {
        players := players + {player};
      }
    }

    method Leave(player: Player)
      requires Valid()
      modifies this
      ensures Valid()
      ensures players == old(players) - {player}
    {
      if player in players {
        players := players - {player};
      }
    }

    /** Picks any two distinct members, removes exactly those two from the
        room and marks both as in game. */
    method DrawTwoPlayersToGame() returns (pair: (Player, Player))
      requires Valid() && |players| >= 2
      modifies this, players
      ensures Valid()
      ensures pair.0 != pair.1 && pair.0 in old(players) && pair.1 in old(players)
      ensures players == old(players) - {pair.0, pair.1}
      ensures pair.0.inGame && pair.1.inGame
      ensures forall p :: p in old(players) ==> p.id == old(p.id)
      ensures forall p :: p in old(players) && p != pair.0 && p != pair.1 ==> p.inGame == old(p.inGame)
    {
      var a :| a in players;
      assert |players - {a}| == |players| - 1;
      var b :| b in players - {a};
      var sample := [a, b];
      for i := 0 to 2
        invariant forall p :: p in players <==> p in old(players) && p !in sample[..i]
        invariant forall j :: 0 <= j < i ==> sample[j].inGame
        invariant forall p :: p in old(players) ==> p.id == old(p.id)
        invariant forall p :: p in old(players) && p !in sample[..i] ==> p.inGame == old(p.inGame)
      {
        var p := sample[i];
        players := players - {p};
        p.inGame := true;
      }
      assert sample[..2] == [a, b];
      assert players == old(players) - {a, b};
      assert players <= old(players);
      pair := (a, b);
    }
  }
}
