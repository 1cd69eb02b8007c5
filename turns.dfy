/**
 * Whose turn it is: the player list fixed by the number of players, and the
 * round-robin rotation applied after every move.
 */
module Turns {
  import opened Wrappers
  import opened Topology

  predicate Distinct(s: seq<Colour>)
  {
    forall a, b :: 0 <= a < b < |s| ==> s[a] != s[b]
  }

  /**
   * The turn order for a number of players: all four colours for 4, the
   * three colours other than green for 3, green and blue for 2; any other
   * number is an error.
   */
  function PlayerOrder(numberOfPlayers: int): (r: Option<seq<Colour>>)
    ensures r.Some? <==> 2 <= numberOfPlayers <= 4
    ensures r.Some? ==> |r.value| == numberOfPlayers && Distinct(r.value) && White !in r.value
    ensures numberOfPlayers == 3 ==> Green !in r.value
  {
    if numberOfPlayers == 4 then Some([Green, Yellow, Red, Blue])
    else if numberOfPlayers == 3 then Some([Yellow, Red, Blue])
    else if numberOfPlayers == 2 then Some([Green, Blue])
    else None
  }

  /** The first position of c in s, or -1 when c is absent (null never occurs in s). */
  function IndexOf(s: seq<Colour>, c: Option<Colour>): (r: int)
    ensures -1 <= r < |s|
    ensures r >= 0 ==> Some(s[r]) == c
  {
    if s == [] then -1
    else if Some(s[0]) == c then 0
    else
      var r := IndexOf(s[1..], c);
      if r < 0 then -1 else r + 1
  }

  /** The position found is the first occurrence, and -1 means c does not occur at all. */
  lemma {:induction false} IndexOfFirst(s: seq<Colour>, c: Option<Colour>)
    ensures IndexOf(s, c) == -1 ==> forall j :: 0 <= j < |s| ==> Some(s[j]) != c
    ensures forall j :: 0 <= j < IndexOf(s, c) ==> Some(s[j]) != c
  {
    if s != [] && Some(s[0]) != c {
      IndexOfFirst(s[1..], c);
      forall j | 0 < j < |s|
        ensures s[j] == s[1..][j - 1]
      {
      }
    }
  }

  /**
   * The player after `current` in the list, wrapping round; the first player
   * when `current` is absent. The position found is -1 .. n-1, so its
   * successor is the source's remainder modulo n (NextPlayerModulo).
   */
  function NextPlayer(players: seq<Colour>, current: Option<Colour>): (r: Colour)
    requires |players| > 0
    ensures r in players
  {
    players[Succ(IndexOf(players, current), |players|)]
  }

  /** Wrap-around of a turn index that has run at most one past the end. */
  lemma WrapIndex(x: int, n: int)
    requires 0 < n && 0 <= x <= n
    ensures x % n == if x == n then 0 else x
  {
  }

  /** The wrap is the remainder: the next player is the entry at (position + 1) mod n. */
  lemma NextPlayerModulo(players: seq<Colour>, current: Option<Colour>)
    requires |players| > 0
    ensures NextPlayer(players, current) == players[(IndexOf(players, current) + 1) % |players|]
  {
    WrapIndex(IndexOf(players, current) + 1, |players|);
  }

  /** In a list without repeats, the position of an entry is the index it sits at. */
  lemma IndexOfDistinct(players: seq<Colour>, i: int)
    requires Distinct(players) && 0 <= i < |players|
    ensures IndexOf(players, Some(players[i])) == i
  {
    var r := IndexOf(players, Some(players[i]));
    IndexOfFirst(players, Some(players[i]));
    assert r != -1 by {
      assert Some(players[i]) == Some(players[i]);
    }
    assert players[r] == players[i];
  }

  /** In a list without repeats, the player after players[i] is the next entry, and the first after the last. */
  lemma NextPlayerFollows(players: seq<Colour>, i: int)
    requires Distinct(players) && 0 <= i < |players|
    ensures NextPlayer(players, Some(players[i])) == players[Succ(i, |players|)]
  {
    IndexOfDistinct(players, i);
  }

  /** The player whose turn it is after k turns, starting from `current`. */
  function Rotate(players: seq<Colour>, current: Colour, k: nat): (r: Colour)
    requires |players| > 0
    ensures k == 0 ==> r == current
    ensures k > 0 ==> r in players
    decreases k
  {
    if k == 0 then current else NextPlayer(players, Some(Rotate(players, current, k - 1)))
  }

  /**
   * Round robin: from players[i], after k <= n turns the turn is at
   * players[i + k] (mod n); so every player gets one turn in any n
   * consecutive turns and the turn comes back after exactly n.
   */
  lemma {:induction false} RoundRobin(players: seq<Colour>, i: int, k: nat)
    requires Distinct(players) && 0 <= i < |players| && k <= |players|
    ensures 0 <= Shift(i, k, |players|) < |players|
    ensures Rotate(players, players[i], k) == players[Shift(i, k, |players|)]
    decreases k
  {
    if k > 0 {
      var n := |players|;
      var j := Shift(i, k - 1, n);
      RoundRobin(players, i, k - 1);
      assert Succ(j, n) == Shift(i, k, n);
      NextPlayerFollows(players, j);
    }
  }

  /** After n turns with n players, the turn is back at the player who started. */
  lemma TurnReturns(players: seq<Colour>, i: int)
    requires Distinct(players) && 0 <= i < |players|
    ensures Rotate(players, players[i], |players|) == players[i]
    ensures forall k :: 0 < k < |players| ==> Rotate(players, players[i], k) != players[i]
  {
    RoundRobin(players, i, |players|);
    forall k | 0 < k < |players|
      ensures Rotate(players, players[i], k) != players[i]
    {
      RoundRobin(players, i, k);
    }
  }
}
