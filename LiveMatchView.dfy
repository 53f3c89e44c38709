/**
 * The decisions of the live-match screen (webapp/src/components/matches/live/LiveMatch.tsx):
 * which action panel is shown, which message a click sends, what the two
 * move icons show, and when the two notifications fire. Rendering is not modelled.
 */
module LiveMatchView {
  import opened Wrappers
  import opened GameLog

  /** A move value as the server names it. */
  datatype Move = Move(name: string)

  /** The outcome of a whole match, as the match state holds it. */
  datatype MatchOutcome = MatchOutcome(name: string)

  /** One finished game. */
  datatype Game = Game(selfMove: Move, opponentMove: Move, outcome: GameOutcome)

  /** The opponent, once one has joined. */
  datatype Opponent = Opponent(username: string)

  /** The fields of the live-match state that the screen reads. */
  datatype MatchView = MatchView(
    isReady: bool,
    selectedMove: Option<Move>,
    opponent: Option<Opponent>,
    matchOutcome: Option<MatchOutcome>,
    games: seq<Game>)

  /** What `Actions` renders. */
  datatype Panel =
    | MatchOver(outcome: MatchOutcome)
    | MoveButtons(disabled: bool)
    | ReadyButton(lastOutcome: Option<GameOutcome>)
    | NoActions

  /** A click on one of the rendered buttons. */
  datatype Click = ClickMove(move: Move) | ClickReady

  /** The outgoing messages of the socket protocol. */
  datatype ClientMessage = MoveMessage(move: Move) | ReadyMessage

  /** What the opponent's move icon shows. */
  datatype OpponentIcon = OpponentIcon(loading: bool, move: Option<Move>)

  /** The two notifications. */
  datatype Notification = OpponentConnected(name: string) | GameOver(outcome: GameOutcome)

  /** lodash `last`. */
  function LastGame(games: seq<Game>): (r: Option<Game>)
    ensures r.None? <==> games == []
    ensures r.Some? ==> r.value == games[|games| - 1]
  {
    if games == [] then None else Some(games[|games| - 1])
  }

  /** `Actions`: the panel for the current state. */
  function ActionPanel(v: MatchView): (p: Panel)
    ensures v.matchOutcome.Some? ==> p == MatchOver(v.matchOutcome.value)
    ensures p.MatchOver? <==> v.matchOutcome.Some?
    ensures p.MoveButtons? <==> v.matchOutcome.None? && v.isReady && v.selectedMove.None?
    ensures p.MoveButtons? ==> (p.disabled <==> v.opponent.None?)
    ensures p.ReadyButton? <==> v.matchOutcome.None? && !v.isReady
    ensures p.ReadyButton? && v.games != [] ==> p.lastOutcome == Some(v.games[|v.games| - 1].outcome)
    ensures p.ReadyButton? && v.games == [] ==> p.lastOutcome == None
    ensures p.NoActions? <==> v.matchOutcome.None? && v.isReady && v.selectedMove.Some?
  {
    if v.matchOutcome.Some? then MatchOver(v.matchOutcome.value)
    else if v.isReady && v.selectedMove.None? then MoveButtons(v.opponent.None?)
    else if !v.isReady then
      ReadyButton(match LastGame(v.games) case None => None case Some(g) => Some(g.outcome))
    else NoActions
  }

  /** The message the click handler of a panel sends, if the panel has that button. */
  function Outgoing(p: Panel, c: Click): (m: Option<ClientMessage>)
    ensures m.Some? ==> (p.MoveButtons? && c.ClickMove?) || (p.ReadyButton? && c.ClickReady?)
    ensures p.MoveButtons? && c.ClickMove? ==> m == Some(MoveMessage(c.move))
    ensures p.ReadyButton? && c.ClickReady? ==> m == Some(ReadyMessage)
  {
    match p
    case MoveButtons(_) => if c.ClickMove? then Some(MoveMessage(c.move)) else None
    case ReadyButton(_) => if c.ClickReady? then Some(ReadyMessage) else None
    case _ => None
  }

  /** What the screen can send from a state, whatever is clicked. */
  function Sendable(v: MatchView, c: Click): Option<ClientMessage> {
    Outgoing(ActionPanel(v), c)
  }

  /**
   * The move click handler sends a Move message exactly when the player is
   * ready, has not picked a move and the match is not over; it carries the
   * clicked move. Whether a disabled button delivers the click is not modelled.
   */
  lemma MoveSendableIff(v: MatchView, c: Click, m: Move)
    ensures Sendable(v, c) == Some(MoveMessage(m))
        <==> c == ClickMove(m) && v.isReady && v.selectedMove.None? && v.matchOutcome.None?
  {
  }

  /** A Ready message can be sent exactly when the player is not ready and the match is not over. */
  lemma ReadySendableIff(v: MatchView, c: Click)
    ensures Sendable(v, c) == Some(ReadyMessage) <==> c == ClickReady && !v.isReady && v.matchOutcome.None?
  {
  }

  /** Once the match has an outcome nothing at all can be sent. */
  lemma NothingAfterMatchOver(v: MatchView, c: Click)
    requires v.matchOutcome.Some?
    ensures Sendable(v, c) == None
  {
  }

  /** `Header`: the player's own move icon. */
  function SelfIcon(v: MatchView): (r: Option<Move>)
    ensures v.isReady ==> r == v.selectedMove
    ensures !v.isReady && v.games != [] ==> r == Some(v.games[|v.games| - 1].selfMove)
    ensures !v.isReady && v.games == [] ==> r == None
  {
    if v.isReady then v.selectedMove
    else match LastGame(v.games) case None => None case Some(g) => Some(g.selfMove)
  }

  /** `Header`: the opponent's move icon. */
  function OpponentIconOf(v: MatchView): (r: OpponentIcon)
    ensures r.loading <==> v.selectedMove.Some?
    ensures r.move.Some? <==> !v.isReady && v.games != []
    ensures r.move.Some? ==> r.move.value == v.games[|v.games| - 1].opponentMove
  {
    OpponentIcon(
      v.selectedMove.Some?,
      if !v.isReady then (match LastGame(v.games) case None => None case Some(g) => Some(g.opponentMove))
      else None)
  }

  /** `opponent && opponent.username`, the dependency of the first effect. */
  function OpponentName(v: MatchView): Option<string> {
    match v.opponent
    case None => None
    case Some(o) => Some(o.username)
  }

  /**
   * The notifications one render fires. `prev` is the state of the previous
   * render, `None` on mount; an effect runs on mount and whenever its
   * dependency changed, and notifies only when its condition holds.
   */
  function Notifications(prev: Option<MatchView>, cur: MatchView): (r: seq<Notification>)
    ensures prev == Some(cur) ==> r == []
    ensures |r| ==
      (if (prev.None? || OpponentName(prev.value) != OpponentName(cur))
          && OpponentName(cur).Some? && OpponentName(cur).value != "" then 1 else 0)
      + (if (prev.None? || |prev.value.games| != |cur.games|) && cur.games != [] then 1 else 0)
    ensures forall n :: n in r && n.OpponentConnected? ==>
      n.name != "" && OpponentName(cur) == Some(n.name) && (prev.None? || OpponentName(prev.value) != OpponentName(cur))
    ensures forall n :: n in r && n.GameOver? ==>
      cur.games != [] && n.outcome == cur.games[|cur.games| - 1].outcome
      && (prev.None? || |prev.value.games| != |cur.games|)
    ensures (prev.None? || OpponentName(prev.value) != OpponentName(cur))
      && OpponentName(cur).Some? && OpponentName(cur).value != ""
      ==> OpponentConnected(OpponentName(cur).value) in r
    ensures (prev.None? || |prev.value.games| != |cur.games|) && cur.games != []
      ==> GameOver(cur.games[|cur.games| - 1].outcome) in r
  {
    var name := OpponentName(cur);
    var connected :=
      if (prev.None? || OpponentName(prev.value) != name) && name.Some? && name.value != ""
      then [OpponentConnected(name.value)] else [];
    var gameOver :=
      if (prev.None? || |prev.value.games| != |cur.games|) && cur.games != []
      then [GameOver(cur.games[|cur.games| - 1].outcome)] else [];
    connected + gameOver
  }

  /** The notifications of a run of renders, the first being the mount. */
  function RenderAll(states: seq<MatchView>): seq<Notification>
    requires states != []
    decreases |states|
  {
    if |states| == 1 then Notifications(None, states[0])
    else RenderAll(states[..|states| - 1]) + Notifications(Some(states[|states| - 2]), states[|states| - 1])
  }

  /** The number of game-over notifications in `ns`. */
  function GameOvers(ns: seq<Notification>): nat
    decreases |ns|
  {
    if ns == [] then 0 else (if ns[0].GameOver? then 1 else 0) + GameOvers(ns[1..])
  }

  lemma {:induction false} GameOversAppend(a: seq<Notification>, b: seq<Notification>)
    ensures GameOvers(a + b) == GameOvers(a) + GameOvers(b)
    decreases |a|
  {
    if a == [] {
      assert a + b == b;
    } else {
      assert (a + b)[1..] == a[1..] + b;
      GameOversAppend(a[1..], b);
    }
  }

  /** Each render adds at most one game to the end of the list, as finished games do. */
  ghost predicate AppendOnly(states: seq<MatchView>) {
    forall i :: 0 < i < |states| ==>
      states[i].games == states[i - 1].games
      || (|states[i].games| == |states[i - 1].games| + 1 && states[i].games[..|states[i - 1].games|] == states[i - 1].games)
  }

  /**
   * Over renders that start with no games and add games one at a time, one
   * game-over notification fires per finished game, however often the
   * screen re-renders in between.
   */
  lemma {:induction false} OneGameOverPerGame(states: seq<MatchView>)
    requires states != [] && states[0].games == []
    requires AppendOnly(states)
    ensures GameOvers(RenderAll(states)) == |states[|states| - 1].games|
    decreases |states|
  {
    if |states| == 1 {
      GameOversOfRender(None, states[0]);
    } else {
      var init := states[..|states| - 1];
      assert AppendOnly(init) by {
        forall i | 0 < i < |init| ensures init[i].games == init[i - 1].games
          || (|init[i].games| == |init[i - 1].games| + 1 && init[i].games[..|init[i - 1].games|] == init[i - 1].games)
        {
          assert init[i] == states[i] && init[i - 1] == states[i - 1];
        }
      }
      OneGameOverPerGame(init);
      var prev, cur := states[|states| - 2], states[|states| - 1];
      assert init[|init| - 1] == prev;
      var ns := Notifications(Some(prev), cur);
      GameOversAppend(RenderAll(init), ns);
      GameOversOfRender(Some(prev), cur);
    }
  }

  /** One render fires a game-over notification exactly when the number of games changed (or on mount) and is not zero. */
  lemma GameOversOfRender(prev: Option<MatchView>, cur: MatchView)
    ensures GameOvers(Notifications(prev, cur))
      == if (prev.None? || |prev.value.games| != |cur.games|) && cur.games != [] then 1 else 0
  {
    var name := OpponentName(cur);
    var connected :=
      if (prev.None? || OpponentName(prev.value) != name) && name.Some? && name.value != ""
      then [OpponentConnected(name.value)] else [];
    var gameOver :=
      if (prev.None? || |prev.value.games| != |cur.games|) && cur.games != []
      then [GameOver(cur.games[|cur.games| - 1].outcome)] else [];
    assert Notifications(prev, cur) == connected + gameOver;
    GameOversAppend(connected, gameOver);
    assert GameOvers(connected) == 0;
  }
}
