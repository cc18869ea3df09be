// The room state machine of the socket handlers (src/lib/server/yahtzee/handlers.js).
// One `Room` object stands for a room's row and its players' rows; the
// handlers' reads and writes of the database become reads and writes of its
// fields. Broadcasts, error messages and logging are not modelled.
module Handlers {
  import opened Wrappers
  import opened Logic

  datatype Status = Waiting | Playing | Finished

  /** A player's row: id, display name and scorecard. */
  datatype Member = Member(id: string, name: string, scorecard: Scorecard)

  /** `rooms.max_players` default. */
  const MaxPlayers: nat := 8

  /** The scorecard the room creator starts with: the column default `'{}'`. */
  const NoScorecard: Scorecard := Scorecard(map[], 0)

  function Ids(ms: seq<Member>): (r: seq<string>)
    ensures |r| == |ms| && forall i :: 0 <= i < |ms| ==> r[i] == ms[i].id
  {
    seq(|ms|, i requires 0 <= i < |ms| => ms[i].id)
  }

  function Cards(ms: seq<Member>): (r: seq<Scorecard>)
    ensures |r| == |ms| && forall i :: 0 <= i < |ms| ==> r[i] == ms[i].scorecard
  {
    seq(|ms|, i requires 0 <= i < |ms| => ms[i].scorecard)
  }

  /** `removePlayer(id)`: the members without the one of that id, in their order. */
  function Without(ms: seq<Member>, id: string): (r: seq<Member>)
    ensures forall m :: m in r <==> m in ms && m.id != id
    ensures id !in Ids(ms) ==> r == ms
    ensures |r| <= |ms|
  {
    if ms == [] then []
    else
      var rest := Without(ms[1..], id);
      assert Ids(ms) == [ms[0].id] + Ids(ms[1..]);
      if ms[0].id == id then rest else [ms[0]] + rest
  }

  /** Removing a member that is present shortens the list. */
  lemma {:induction false} WithoutShrinks(ms: seq<Member>, id: string)
    requires id in Ids(ms)
    ensures |Without(ms, id)| < |ms|
  {
    assert Ids(ms) == [ms[0].id] + Ids(ms[1..]);
    if ms[0].id != id {
      WithoutShrinks(ms[1..], id);
    }
  }

  /** Removal works piecewise, so the members that stay keep their order. */
  lemma {:induction false} WithoutAppend(a: seq<Member>, b: seq<Member>, id: string)
    ensures Without(a + b, id) == Without(a, id) + Without(b, id)
  {
    if a != [] {
      assert (a + b)[0] == a[0] && (a + b)[1..] == a[1..] + b;
      WithoutAppend(a[1..], b, id);
    } else {
      assert a + b == b;
    }
  }

  /** Removing the one member of that id, at position k, closes the gap and keeps everyone else in order. */
  lemma {:induction false} WithoutOrder(ms: seq<Member>, id: string, k: nat)
    requires k < |ms| && ms[k].id == id && id !in Ids(ms[..k]) && id !in Ids(ms[k + 1..])
    ensures Without(ms, id) == ms[..k] + ms[k + 1..]
  {
    var before, after := ms[..k], ms[k + 1..];
    assert ms == before + ([ms[k]] + after);
    WithoutAppend(before, [ms[k]] + after, id);
    WithoutAppend([ms[k]], after, id);
    WithoutSingle(ms[k], id);
  }

  /** A one-member list loses its member exactly when the id is that member's. */
  lemma {:induction false} WithoutSingle(m: Member, id: string)
    ensures Without([m], id) == if m.id == id then [] else [m]
  {
    assert [m][1..] == [];
  }

  /** Every member with a fresh, all-null scorecard. */
  function FreshCards(ms: seq<Member>): (r: seq<Member>)
    ensures |r| == |ms|
    ensures forall i :: 0 <= i < |ms| ==>
      r[i].id == ms[i].id && r[i].name == ms[i].name && r[i].scorecard == CreateEmptyScorecard()
  {
    seq(|ms|, i requires 0 <= i < |ms| => ms[i].(scorecard := CreateEmptyScorecard()))
  }

  // ------------------------------------------------------------ scoring a turn

  /**
   * The scorecard after `score-category` writes category c: that slot now
   * holds the throw's score, and the yahtzee bonus, decided on the dice and
   * the card before the slot is written, grows by 100 exactly for a second
   * yahtzee after a scored 50.
   */
  function RecordScore(sc: Scorecard, dice: seq<int>, c: Category): (r: Scorecard)
    requires AllFaces(dice)
    ensures !r.IsNull(c) && r.Value(c) == Score(dice, c)
    ensures r.yahtzeeBonus == sc.yahtzeeBonus
      + (if sc.Value(Yahtzee) == 50 && !sc.IsNull(Yahtzee) && AllSame(dice) && |dice| > 0 then 100 else 0)
  {
    var bonus := if CanScoreYahtzeeBonus(dice, sc) then sc.yahtzeeBonus + 100 else sc.yahtzeeBonus;
    Scorecard(sc.slots[c := Some(Score(dice, c))], bonus)
  }

  /** Recording a score leaves every other slot as it was. */
  lemma {:induction false} RecordScoreSlots(sc: Scorecard, dice: seq<int>, c: Category)
    requires AllFaces(dice)
    ensures var r := RecordScore(sc, dice, c);
      forall d :: d != c ==> r.IsNull(d) == sc.IsNull(d) && r.Value(d) == sc.Value(d)
  {
    var r := RecordScore(sc, dice, c);
    assert r.slots == sc.slots[c := Some(Score(dice, c))];
    forall d | d != c ensures r.IsNull(d) == sc.IsNull(d) && r.Value(d) == sc.Value(d) {
      assert d in r.slots <==> d in sc.slots;
    }
  }

  /** Recording a score into a null slot adds exactly that score to the thirteen slots. */
  lemma {:induction false} RecordScoreSum(sc: Scorecard, dice: seq<int>, c: Category)
    requires AllFaces(dice) && sc.IsNull(c)
    ensures var r := RecordScore(sc, dice, c);
      UpperSum(r) + LowerSum(r) == UpperSum(sc) + LowerSum(sc) + Score(dice, c)
  {
    RecordScoreSlots(sc, dice, c);
    SlotSumsUpdate(sc, RecordScore(sc, dice, c), c);
  }

  /** Two scorecards that differ only in slot c, which is 0 in the first, differ in their slot sums by that slot. */
  lemma {:induction false} SlotSumsUpdate(sc: Scorecard, r: Scorecard, c: Category)
    requires sc.Value(c) == 0 && forall d :: d != c ==> r.Value(d) == sc.Value(d)
    ensures UpperSum(r) + LowerSum(r) == UpperSum(sc) + LowerSum(sc) + r.Value(c)
  {
  }

  /**
   * The turn advance after a score: the index moves to the next seat, or
   * back to the first seat after the last, where the turn counter counts a
   * new round; the next player starts with fresh dice, no holds and three
   * rolls.
   */
  function NextTurn(g: GameState, playerCount: nat): (r: GameState)
    requires playerCount > 0
    ensures 0 <= g.currentPlayerIndex < playerCount ==>
      if g.currentPlayerIndex + 1 == playerCount
      then r.currentPlayerIndex == 0 && r.turnNumber == g.turnNumber + 1
      else r.currentPlayerIndex == g.currentPlayerIndex + 1 && r.turnNumber == g.turnNumber
    ensures 0 <= g.currentPlayerIndex ==> 0 <= r.currentPlayerIndex < playerCount
    ensures r.dice == StartDice && r.heldDice == NoHolds && r.rollsLeft == 3
    ensures r.isRolling == g.isRolling && r.winner == g.winner
  {
    var next := (g.currentPlayerIndex + 1) % playerCount;
    g.(currentPlayerIndex := next,
       turnNumber := if next == 0 then g.turnNumber + 1 else g.turnNumber,
       dice := StartDice, heldDice := NoHolds, rollsLeft := 3)
  }

  /** k turns in a row. */
  function Turns(g: GameState, playerCount: nat, k: nat): GameState
    requires playerCount > 0
  {
    if k == 0 then g else NextTurn(Turns(g, playerCount, k - 1), playerCount)
  }

  /**
   * Starting from a valid index, k turns later the index has moved k places
   * round the table: counting each completed round, which advances the turn
   * counter once, as the table's size.
   */
  lemma {:induction false} TurnsRoundRobin(g: GameState, playerCount: nat, k: nat)
    requires playerCount > 0 && 0 <= g.currentPlayerIndex < playerCount
    ensures var r := Turns(g, playerCount, k);
      0 <= r.currentPlayerIndex < playerCount && r.turnNumber >= g.turnNumber
      && (r.turnNumber - g.turnNumber) * playerCount + r.currentPlayerIndex == g.currentPlayerIndex + k
  {
    if k > 0 {
      TurnsRoundRobin(g, playerCount, k - 1);
      var r := Turns(g, playerCount, k - 1);
      MulSucc(r.turnNumber - g.turnNumber, playerCount);
    }
  }

  lemma {:induction false} MulSucc(a: int, n: int)
    ensures (a + 1) * n == a * n + n
  {
  }

  /** A whole round brings the index back to the first player and advances the turn counter by one. */
  lemma {:induction false} FullRound(g: GameState, playerCount: nat)
    requires playerCount > 0 && g.currentPlayerIndex == 0
    ensures Turns(g, playerCount, playerCount).currentPlayerIndex == 0
    ensures Turns(g, playerCount, playerCount).turnNumber == g.turnNumber + 1
  {
    TurnsRoundRobin(g, playerCount, playerCount);
    var r := Turns(g, playerCount, playerCount);
    var rounds := r.turnNumber - g.turnNumber;
    if rounds >= 2 {
      MulAtLeast(rounds, playerCount);
    }
  }

  lemma {:induction false} MulAtLeast(a: int, n: int)
    requires a >= 2 && n > 0
    ensures a * n >= 2 * n
  {
    var b := a - 2;
    assert a * n == b * n + 2 * n;
    assert b * n >= 0;
  }

  /** The facts a game state keeps while a room exists. */
  predicate GameOk(g: GameState)
  {
    |g.dice| == 5 && AllFaces(g.dice) && |g.heldDice| == 5
    && 0 <= g.rollsLeft <= 3 && g.turnNumber >= 1 && g.currentPlayerIndex >= 0
  }

  /** A winner as `score-category` records it: the first member with the highest total. */
  predicate IsWinner(w: Winner, ms: seq<Member>)
  {
    exists k :: 0 <= k < |ms| && w == Winner(ms[k].id, ms[k].name, CalculateTotalScore(ms[k].scorecard))
      && (forall j :: 0 <= j < |ms| ==> CalculateTotalScore(ms[j].scorecard) <= w.score)
      && (forall j :: 0 <= j < k ==> CalculateTotalScore(ms[j].scorecard) < w.score)
  }

  // ------------------------------------------------------------------- the room

  class Room {
    /** False once `leave-room` has deleted the room. */
    var live: bool
    var status: Status
    var hostId: string
    /** The non-spectators, in turn order (the order `getPlayers` lists them). */
    var seated: seq<Member>
    /** The spectators. */
    var spectators: seq<Member>
    var gameState: Option<GameState>

    predicate Valid()
      reads this
    {
      (gameState.Some? ==> GameOk(gameState.value))
      && (status != Waiting ==> gameState.Some?)
    }

    /** The caller is the player at `currentPlayerIndex` of a game in progress. */
    predicate IsCurrent(playerId: string)
      reads this
    {
      live && status == Playing && gameState.Some?
      && 0 <= gameState.value.currentPlayerIndex < |seated|
      && seated[gameState.value.currentPlayerIndex].id == playerId
    }

    /** `create-room`: a waiting room with its creator seated and as host. */
    constructor (roomHostId: string, hostName: string)
      ensures Valid()
      ensures live && status == Waiting && hostId == roomHostId && gameState.None?
      ensures seated == [Member(roomHostId, hostName, NoScorecard)] && spectators == []
    {
      live := true;
      status := Waiting;
      hostId := roomHostId;
      seated := [Member(roomHostId, hostName, NoScorecard)];
      spectators := [];
      gameState := None;
    }

    /**
     * `join-room`: a newcomer sits down (last in turn order, with an empty
     * scorecard) while the room is waiting and has a free seat; once the game
     * has started a newcomer can only watch. A full room refuses a player.
     */
    method Join(id: string, name: string, asSpectator: bool) returns (ok: bool, spectator: bool)
      requires Valid()
      modifies this
      ensures Valid()
      ensures spectator == (asSpectator || old(status) != Waiting)
      ensures ok <==> old(live) && (spectator || old(|seated|) < MaxPlayers)
      ensures !ok ==> unchanged(this)
      ensures ok && spectator ==>
        spectators == old(spectators) + [Member(id, name, NoScorecard)] && seated == old(seated)
        && live && status == old(status) && hostId == old(hostId) && gameState == old(gameState)
      ensures ok && !spectator ==>
        seated == old(seated) + [Member(id, name, CreateEmptyScorecard())] && spectators == old(spectators)
        && live && status == old(status) && hostId == old(hostId) && gameState == old(gameState)
    {
      spectator := asSpectator || status != Waiting;
      if !live || (!spectator && |seated| >= MaxPlayers) {
        return false, spectator;
      }
      if spectator {
        spectators := spectators + [Member(id, name, NoScorecard)];
      } else {
        seated := seated + [Member(id, name, CreateEmptyScorecard())];
      }
      ok := true;
    }

    /**
     * `start-game`: only the host, and only with at least one seated player.
     * The game state starts afresh and every seated player's scorecard is
     * reset; the room's status is not checked first.
     */
    method StartGame(playerId: string) returns (ok: bool)
      requires Valid()
      modifies this
      ensures Valid()
      ensures ok <==> old(live) && old(hostId) == playerId && old(|seated|) >= 1
      ensures !ok ==> unchanged(this)
      ensures ok ==>
        status == Playing && gameState == Some(CreateInitialGameState()) && seated == FreshCards(old(seated))
        && live && hostId == old(hostId) && spectators == old(spectators)
    {
      if !live || hostId != playerId {
        return false;
      }
      if |seated| < 1 {
        return false;
      }
      var g := CreateInitialGameState();
      seated := FreshCards(seated);
      status := Playing;
      gameState := Some(g);
      ok := true;
    }

    /**
     * `roll-dice`: the current player, with rolls left, rerolls the dice
     * that are not held and uses up one roll.
     */
    method RollDice(playerId: string) returns (ok: bool)
      requires Valid()
      modifies this
      ensures Valid()
      ensures ok <==> old(IsCurrent(playerId)) && old(gameState).value.rollsLeft > 0
      ensures !ok ==> unchanged(this)
      ensures ok ==> gameState.Some? && old(gameState).Some?
      ensures ok ==>
        var g, g' := old(gameState).value, gameState.value;
        g'.rollsLeft == g.rollsLeft - 1 && g'.isRolling
        && (forall i :: 0 <= i < 5 && g.heldDice[i] ==> g'.dice[i] == g.dice[i])
        && g' == g.(dice := g'.dice, rollsLeft := g.rollsLeft - 1, isRolling := true)
        && live == old(live) && status == old(status) && hostId == old(hostId)
        && seated == old(seated) && spectators == old(spectators)
    {
      if !IsCurrent(playerId) || gameState.value.rollsLeft <= 0 {
        return false;
      }
      var g := gameState.value;
      var dice := Logic.RollDice(g.dice, g.heldDice);
      gameState := Some(g.(dice := dice, rollsLeft := g.rollsLeft - 1, isRolling := true));
      ok := true;
    }

    /**
     * `toggle-hold`: the current player, between the first and the last roll,
     * flips the hold on one die. An index outside the five dice changes none
     * of them.
     */
    method ToggleHold(playerId: string, dieIndex: int) returns (ok: bool)
      requires Valid()
      modifies this
      ensures Valid()
      ensures ok <==> old(IsCurrent(playerId)) && 0 < old(gameState).value.rollsLeft < 3
      ensures !ok ==> unchanged(this)
      ensures ok ==> var g := old(gameState).value;
        gameState == Some(if 0 <= dieIndex < 5 then g.(heldDice := g.heldDice[dieIndex := !g.heldDice[dieIndex]]) else g)
        && live == old(live) && status == old(status) && hostId == old(hostId)
        && seated == old(seated) && spectators == old(spectators)
    {
      if !IsCurrent(playerId) {
        return false;
      }
      var g := gameState.value;
      if g.rollsLeft == 3 || g.rollsLeft == 0 {
        return false;
      }
      if 0 <= dieIndex < 5 {
        gameState := Some(g.(heldDice := g.heldDice[dieIndex := !g.heldDice[dieIndex]]));
      }
      ok := true;
    }

    /** The category a `score-category` request may write: a known key whose slot is null. */
    predicate CanScore(playerId: string, category: string)
      reads this
    {
      IsCurrent(playerId) && gameState.value.rollsLeft != 3
      && ParseKey(category).Some?
      && seated[gameState.value.currentPlayerIndex].scorecard.IsNull(ParseKey(category).value)
    }

    /**
     * `score-category`: the current player, after at least one roll, writes
     * the score of the dice into a null slot (an unknown key or a set slot is
     * refused). When every seated scorecard is then complete the winner is
     * recorded and the game finishes; otherwise the turn passes on.
     */
    method ScoreCategory(playerId: string, category: string) returns (ok: bool)
      requires Valid()
      modifies this
      ensures Valid()
      ensures ok <==> old(CanScore(playerId, category))
      ensures !ok ==> unchanged(this)
      ensures ok ==>
        var g, i, c := old(gameState).value, old(gameState).value.currentPlayerIndex, ParseKey(category).value;
        0 <= i < |old(seated)| && AllFaces(g.dice)
        && seated == old(seated)[i := old(seated)[i].(scorecard := RecordScore(old(seated)[i].scorecard, g.dice, c))]
        && live == old(live) && hostId == old(hostId) && spectators == old(spectators)
        && gameState.Some?
        && (IsGameOver(Cards(seated)) ==>
              status == Finished && gameState.value.winner.Some? && IsWinner(gameState.value.winner.value, seated)
              && gameState.value == g.(winner := gameState.value.winner))
        && (!IsGameOver(Cards(seated)) ==>
              status == old(status) && gameState == Some(NextTurn(g, |seated|)))
    {
      if !IsCurrent(playerId) {
        return false;
      }
      var g := gameState.value;
      var i := g.currentPlayerIndex;
      if g.rollsLeft == 3 {
        return false;
      }
      var parsed := ParseKey(category);
      if parsed.None? || !seated[i].scorecard.IsNull(parsed.value) {
        return false;
      }
      var c := parsed.value;
      var scorecard := RecordScore(seated[i].scorecard, g.dice, c);
      seated := seated[i := seated[i].(scorecard := scorecard)];
      ok := true;
      var cards := Cards(seated);
      if IsGameOver(cards) {
        var winner, score := DetermineWinner(cards);
        var w := seated[winner.value];
        gameState := Some(g.(winner := Some(Winner(w.id, w.name, score))));
        status := Finished;
        return;
      }
      gameState := Some(NextTurn(g, |seated|));
    }

    /**
     * `leave-room`: the player is looked up in the global player table, so a
     * player of another room is found too (`inOtherRoom`) and removed there,
     * which this room does not see. The player is removed from this room; an
     * empty room is deleted; a leaving host hands over to the first seated
     * player, or else to the first spectator. Nothing else changes, not even
     * the index of the current player.
     */
    method LeaveRoom(playerId: string, inOtherRoom: bool) returns (ok: bool)
      requires Valid()
      modifies this
      ensures Valid()
      ensures ok <==> old(live) && (playerId in old(Ids(seated)) || playerId in old(Ids(spectators)) || inOtherRoom)
      ensures !ok ==> unchanged(this)
      ensures ok ==>
        seated == Without(old(seated), playerId) && spectators == Without(old(spectators), playerId)
        && status == old(status) && gameState == old(gameState)
        && live == (seated != [] || spectators != [])
        && hostId == (if !live || old(hostId) != playerId then old(hostId)
                      else if seated != [] then seated[0].id
                      else spectators[0].id)
      ensures (ok && playerId !in old(Ids(seated)) && playerId !in old(Ids(spectators))
               && old(hostId) != playerId && (old(seated) != [] || old(spectators) != []))
        ==> unchanged(this)
    {
      if !live || (playerId !in Ids(seated) && playerId !in Ids(spectators) && !inOtherRoom) {
        return false;
      }
      seated := Without(seated, playerId);
      spectators := Without(spectators, playerId);
      ok := true;
      if seated == [] && spectators == [] {
        live := false;
      } else if hostId == playerId {
        hostId := if seated != [] then seated[0].id else spectators[0].id;
      }
    }

    /**
     * `kick-player`: the host removes a player other than themselves. The
     * target is looked up in the global player table, so a player of another
     * room (`targetInOtherRoom`) is removed there and this room stays as it
     * was. The index of the current player is left as it was, even when the
     * kicked player sat before it.
     */
    method KickPlayer(playerId: string, targetPlayerId: string, targetInOtherRoom: bool) returns (ok: bool)
      requires Valid()
      modifies this
      ensures Valid()
      ensures ok <==>
        old(live) && old(hostId) == playerId && playerId != targetPlayerId
        && (targetPlayerId in old(Ids(seated)) || targetPlayerId in old(Ids(spectators)) || targetInOtherRoom)
      ensures !ok ==> unchanged(this)
      ensures ok ==>
        seated == Without(old(seated), targetPlayerId)
        && spectators == Without(old(spectators), targetPlayerId)
        && live && status == old(status) && hostId == old(hostId) && gameState == old(gameState)
      ensures ok && targetPlayerId !in old(Ids(seated)) && targetPlayerId !in old(Ids(spectators)) ==> unchanged(this)
    {
      if !live || hostId != playerId || playerId == targetPlayerId {
        return false;
      }
      if targetPlayerId !in Ids(seated) && targetPlayerId !in Ids(spectators) && !targetInOtherRoom {
        return false;
      }
      seated := Without(seated, targetPlayerId);
      spectators := Without(spectators, targetPlayerId);
      ok := true;
    }
  }

  // --------------------------------------------------- consequences for a game

  /**
   * After a seated player before the current one is kicked, the index points
   * one place further on: here the last seat, which is now past the end, so
   * nobody is the current player.
   */
  lemma {:induction false} KickBeforeCurrentStalls(a: Member, b: Member, g: GameState)
    requires a.id != b.id && g.currentPlayerIndex == 1
    ensures var left := Without([a, b], a.id);
      left == [b] && !(0 <= g.currentPlayerIndex < |left|)
  {
    assert Ids([a, b]) == [a.id, b.id];
    assert Without([b], a.id) == [b] by {
      assert Ids([b]) == [b.id];
    }
  }
}
