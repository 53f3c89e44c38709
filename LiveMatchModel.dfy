/**
 * The server-side live match (api/livematch/models.py): two player slots,
 * the connected flags, and the moves of the game being played.
 * Players are identified by their user id.
 */
module LiveMatchModel {
  import opened Wrappers

  type UserId = string

  /** `ClientErrorType`; the model needs only the kind the match raises. */
  datatype ClientErrorType = InvalidMove

  /** The exceptions the match raises. */
  datatype MatchError = ClientError(kind: ClientErrorType, message: string) | RuntimeError(message: string)

  /** The two player slots; `None` means nobody has taken the slot. */
  datatype Slots = Slots(player1: Option<UserId>, player2: Option<UserId>)

  /** The two move fields; `None` means that player has not moved in this game. */
  datatype Moves = Moves(player1Move: Option<string>, player2Move: Option<string>)

  /** Python truthiness of a nullable character field: `None` and `""` are false. */
  predicate Truthy(m: Option<string>) {
    m.Some? && m.value != ""
  }

  /** `is_game_in_progress`. */
  function GameInProgress(m: Moves): (r: bool)
    ensures r <==> (Truthy(m.player1Move) && !Truthy(m.player2Move)) || (!Truthy(m.player1Move) && Truthy(m.player2Move))
  {
    Truthy(m.player1Move) != Truthy(m.player2Move)
  }

  /** `is_game_complete` as written: `player1_move and player1_move`. */
  function GameCompleteAsWritten(m: Moves): (r: bool)
    ensures r <==> Truthy(m.player1Move)
  {
    Truthy(m.player1Move) && Truthy(m.player1Move)
  }

  /** As written, whether a game is complete does not depend on player 2's move at all. */
  lemma CompleteIgnoresPlayer2(m: Moves, other: Option<string>)
    ensures GameCompleteAsWritten(m) == GameCompleteAsWritten(m.(player2Move := other))
  {
  }

  /** `is_game_complete` as evidently intended: both players have moved. */
  function GameComplete(m: Moves): bool {
    Truthy(m.player1Move) && Truthy(m.player2Move)
  }

  /** As written, a game can be both in progress and complete: only player 1 has moved. */
  lemma CompleteWhileInProgress()
    ensures var m := Moves(Some("rock"), None);
      GameCompleteAsWritten(m) && GameInProgress(m) && !GameComplete(m)
  {
  }

  /** Corrected: every pair of moves is exactly one of not started, in progress, complete. */
  lemma StagesPartition(m: Moves)
    ensures GameComplete(m) ==> !GameInProgress(m)
    ensures GameInProgress(m) ==> !GameComplete(m)
    ensures !GameComplete(m) && !GameInProgress(m) <==> !Truthy(m.player1Move) && !Truthy(m.player2Move)
  {
  }

  /** Lines 56-59 of `connect_player`: the player takes the first empty slot. */
  function ConnectSlotsAsWritten(s: Slots, p: UserId): (r: Slots)
    ensures s.player1.None? ==> r == s.(player1 := Some(p))
    ensures s.player1.Some? && s.player2.None? ==> r == s.(player2 := Some(p))
    ensures s.player1.Some? && s.player2.Some? ==> r == s
  {
    if s.player1.None? then s.(player1 := Some(p))
    else if s.player2.None? then s.(player2 := Some(p))
    else s
  }

  /** Reconnecting the first player while the second slot is empty puts that player in both slots. */
  lemma ReconnectTakesSecondSlot(p: UserId)
    ensures ConnectSlotsAsWritten(Slots(Some(p), None), p) == Slots(Some(p), Some(p))
  {
  }

  /** Slot filling as the docstring describes it: a player already in the match keeps the slots as they are. */
  function ConnectSlots(s: Slots, p: UserId): (r: Slots)
    ensures s.player1 == Some(p) || s.player2 == Some(p) ==> r == s
  {
    if s.player1 == Some(p) || s.player2 == Some(p) then s
    else ConnectSlotsAsWritten(s, p)
  }

  /** Two different players in the two slots: the corrected filling keeps that so, and seats the player if there is room. */
  predicate DistinctPlayers(s: Slots) {
    s.player1.Some? && s.player2.Some? ==> s.player1 != s.player2
  }

  lemma ConnectSlotsKeepsPlayersDistinct(s: Slots, p: UserId)
    requires DistinctPlayers(s)
    ensures DistinctPlayers(ConnectSlots(s, p))
    ensures ConnectSlots(s, p).player1 == Some(p) || ConnectSlots(s, p).player2 == Some(p)
        <==> s.player1 == Some(p) || s.player2 == Some(p) || s.player1.None? || s.player2.None?
  {
  }

  /** `apply_move` on values: the moves after it, or the error it raises. */
  function MoveAfter(s: Slots, m: Moves, p: UserId, move: string): (r: Result<Moves, MatchError>)
    ensures s.player1 == Some(p) && m.player1Move.None? ==> r == Ok(m.(player1Move := Some(move)))
    ensures s.player1 != Some(p) && s.player2 == Some(p) && m.player2Move.None? ==> r == Ok(m.(player2Move := Some(move)))
    ensures s.player1 == Some(p) && m.player1Move.Some? ==> r == Err(ClientError(InvalidMove, "Move already applied"))
    ensures s.player1 != Some(p) && s.player2 == Some(p) && m.player2Move.Some? ==> r == Err(ClientError(InvalidMove, "Move already applied"))
    ensures s.player1 != Some(p) && s.player2 != Some(p) ==> r == Err(ClientError(InvalidMove, "Player not in match"))
  {
    if s.player1 == Some(p) then
      if m.player1Move.None? then Ok(m.(player1Move := Some(move)))
      else Err(ClientError(InvalidMove, "Move already applied"))
    else if s.player2 == Some(p) then
      if m.player2Move.None? then Ok(m.(player2Move := Some(move)))
      else Err(ClientError(InvalidMove, "Move already applied"))
    else Err(ClientError(InvalidMove, "Player not in match"))
  }

  /** A player who has moved cannot move again in the same game, whatever the move. */
  lemma SecondMoveRejected(s: Slots, m: Moves, p: UserId, move: string, again: string)
    requires MoveAfter(s, m, p, move).Ok?
    ensures MoveAfter(s, MoveAfter(s, m, p, move).value, p, again) == Err(ClientError(InvalidMove, "Move already applied"))
  {
  }

  /**
   * From a fresh game, two different players each making a non-empty move
   * first put the game in progress and then complete it.
   */
  lemma TwoMovesCompleteGame(p1: UserId, p2: UserId, move1: string, move2: string)
    requires p1 != p2 && move1 != "" && move2 != ""
    ensures var s := Slots(Some(p1), Some(p2));
      var first := MoveAfter(s, Moves(None, None), p1, move1);
      && first.Ok? && GameInProgress(first.value)
      && var second := MoveAfter(s, first.value, p2, move2);
      && second.Ok? && GameComplete(second.value) && !GameInProgress(second.value)
  {
  }

  /** `process_complete_game` on values, as written: checks `is_game_complete`, then clears both moves. */
  function CompleteGameAsWritten(m: Moves): (r: Result<Moves, MatchError>)
    ensures r.Err? <==> !Truthy(m.player1Move)
    ensures r.Err? ==> r.error == RuntimeError("Cannot complete game")
    ensures r.Ok? ==> r.value == Moves(None, None) && !GameInProgress(r.value)
  {
    if !GameCompleteAsWritten(m) then Err(RuntimeError("Cannot complete game"))
    else Ok(Moves(None, None))
  }

  /**
   * A `LiveMatch` row. `player1IsConnected`/`player2IsConnected` are the
   * declared fields; the methods write `player1_connected`/`player2_connected`,
   * attributes the model does not declare, which Python creates on first
   * assignment (`None` here until then).
   */
  class LiveMatch {
    const id: string
    const bestOf: nat
    var player1: Option<UserId>
    var player2: Option<UserId>
    var player1IsConnected: bool
    var player2IsConnected: bool
    var player1Connected: Option<bool>
    var player2Connected: Option<bool>
    var player1Move: Option<string>
    var player2Move: Option<string>

    function SlotsOf(): Slots reads this { Slots(player1, player2) }
    function MovesOf(): Moves reads this { Moves(player1Move, player2Move) }

    /** A new row with the field defaults. */
    constructor (id: string, bestOf: nat)
      ensures this.id == id && this.bestOf == bestOf
      ensures player1 == None && player2 == None
      ensures !player1IsConnected && !player2IsConnected
      ensures player1Connected == None && player2Connected == None
      ensures player1Move == None && player2Move == None
    {
      this.id := id;
      this.bestOf := bestOf;
      player1, player2 := None, None;
      player1IsConnected, player2IsConnected := false, false;
      player1Connected, player2Connected := None, None;
      player1Move, player2Move := None, None;
    }

    /** `connect_player`. */
    method ConnectPlayer(p: UserId) returns (ok: bool)
      modifies this`player1, this`player2, this`player1Connected, this`player2Connected
      ensures SlotsOf() == ConnectSlotsAsWritten(old(SlotsOf()), p)
      ensures ok <==> player1 == Some(p) || player2 == Some(p)
      ensures ok <==> old(player1) == Some(p) || old(player2) == Some(p) || old(player1).None? || old(player2).None?
      ensures player1 == Some(p) ==> player1Connected == Some(true) && player2Connected == old(player2Connected)
      ensures player1 != Some(p) && player2 == Some(p) ==> player2Connected == Some(true) && player1Connected == old(player1Connected)
      ensures !ok ==> player1Connected == old(player1Connected) && player2Connected == old(player2Connected)
      ensures player1IsConnected == old(player1IsConnected) && player2IsConnected == old(player2IsConnected)
    {
      if player1.None? {
        player1 := Some(p);
      } else if player2.None? {
        player2 := Some(p);
      }
      if player1 == Some(p) {
        player1Connected := Some(true);
      } else if player2 == Some(p) {
        player2Connected := Some(true);
      } else {
        return false;
      }
      return true;
    }

    /** `disconnect_player`; Python raises on `self.player2.player` when slot 2 is empty and `p` is not player 1. */
    method DisconnectPlayer(p: UserId) returns (ok: bool)
      requires player1 == Some(p) || player2.Some?
      modifies this`player1Connected, this`player2Connected
      ensures ok <==> player1 == Some(p) || player2 == Some(p)
      ensures player1 == Some(p) ==> player1Connected == Some(false) && player2Connected == old(player2Connected)
      ensures player1 != Some(p) && player2 == Some(p) ==> player2Connected == Some(false) && player1Connected == old(player1Connected)
      ensures !ok ==> player1Connected == old(player1Connected) && player2Connected == old(player2Connected)
    {
      if player1 == Some(p) {
        player1Connected := Some(false);
      } else if player2 == Some(p) {
        player2Connected := Some(false);
      } else {
        return false;
      }
      return true;
    }

    /** `apply_move`: `raised` is the exception raised, if any; the moves change only without one. */
    method ApplyMove(p: UserId, move: string) returns (raised: Option<MatchError>)
      requires player1 == Some(p) || player2.Some?
      modifies this`player1Move, this`player2Move
      ensures var r := MoveAfter(old(SlotsOf()), old(MovesOf()), p, move);
        && (r.Ok? ==> raised == None && MovesOf() == r.value)
        && (r.Err? ==> raised == Some(r.error) && MovesOf() == old(MovesOf()))
    {
      if player1 == Some(p) {
        if player1Move.None? {
          player1Move := Some(move);
          return None;
        }
        return Some(ClientError(InvalidMove, "Move already applied"));
      } else if player2 == Some(p) {
        if player2Move.None? {
          player2Move := Some(move);
          return None;
        }
        return Some(ClientError(InvalidMove, "Move already applied"));
      }
      return Some(ClientError(InvalidMove, "Player not in match"));
    }

    /** `process_complete_game`, up to the point where the file ends. */
    method ProcessCompleteGame() returns (raised: Option<MatchError>)
      modifies this`player1Move, this`player2Move
      ensures var r := CompleteGameAsWritten(old(MovesOf()));
        && (r.Ok? ==> raised == None && MovesOf() == r.value)
        && (r.Err? ==> raised == Some(r.error) && MovesOf() == old(MovesOf()))
    {
      if !GameCompleteAsWritten(MovesOf()) {
        return Some(RuntimeError("Cannot complete game"));
      }
      player1Move := None;
      player2Move := None;
      return None;
    }
  }
}
