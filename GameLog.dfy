/**
 * The game-log line shown above a match (webapp/src/components/match/GameLog.tsx):
 * one letter per game played, one dash per game that may still be played,
 * separated by single spaces.
 */
module GameLog {
  import opened Wrappers

  /** `GameOutcome`, from the local player's point of view. */
  datatype GameOutcome = Win | Loss | Tie

  /** The placeholder for a game not yet played: an en dash. */
  const Placeholder: string := "–"

  /** `outcomeLabel`. */
  function OutcomeLabel(o: GameOutcome): (r: string)
    ensures |r| == 1 && r != Placeholder && ' ' !in r
  {
    match o
    case Win => "W"
    case Loss => "L"
    case Tie => "T"
  }

  /** Reads a label back. */
  function LabelOutcome(s: string): (r: Option<GameOutcome>)
  {
    if s == "W" then Some(Win)
    else if s == "L" then Some(Loss)
    else if s == "T" then Some(Tie)
    else None
  }

  /** Labels are distinct: each one names exactly one outcome. */
  lemma LabelRoundTrip(o: GameOutcome)
    ensures LabelOutcome(OutcomeLabel(o)) == Some(o)
  {
  }

  /** The tokens of the log: the labels in game order, then `remaining` placeholders. */
  function Tokens(gameLog: seq<GameOutcome>, remaining: nat): (r: seq<string>)
    ensures |r| == |gameLog| + remaining
    ensures forall i :: 0 <= i < |gameLog| ==> r[i] == OutcomeLabel(gameLog[i])
    ensures forall i :: |gameLog| <= i < |r| ==> r[i] == Placeholder
    ensures forall i :: 0 <= i < |r| ==> r[i] != "" && ' ' !in r[i]
  {
    seq(|gameLog|, i requires 0 <= i < |gameLog| => OutcomeLabel(gameLog[i])) + seq(remaining, _ => Placeholder)
  }

  /** `Array.prototype.join(' ')`. */
  function Join(tokens: seq<string>): string
    decreases |tokens|
  {
    if tokens == [] then ""
    else if |tokens| == 1 then tokens[0]
    else tokens[0] + " " + Join(tokens[1..])
  }

  /** `String.prototype.split(' ')`: the pieces between single spaces. */
  function Split(s: string): (r: seq<string>)
    ensures |r| >= 1
    decreases |s|
  {
    if s == [] then [""]
    else if s[0] == ' ' then [""] + Split(s[1..])
    else
      var rest := Split(s[1..]);
      [[s[0]] + rest[0]] + rest[1..]
  }

  /** A piece without spaces splits to itself. */
  lemma {:induction false} SplitWord(t: string)
    requires ' ' !in t
    ensures Split(t) == [t]
    decreases |t|
  {
    if t != [] {
      assert ' ' !in t[1..];
      SplitWord(t[1..]);
      assert [t[0]] + t[1..] == t;
    }
  }

  /** A space-free first piece followed by a space splits off as the first piece. */
  lemma {:induction false} SplitFirst(t: string, rest: string)
    requires ' ' !in t
    ensures Split(t + " " + rest) == [t] + Split(rest)
    decreases |t|
  {
    var s := t + " " + rest;
    if t == [] {
      assert s == " " + rest;
      assert s[1..] == rest;
    } else {
      assert s[0] == t[0] && s[1..] == t[1..] + " " + rest;
      assert ' ' !in t[1..];
      SplitFirst(t[1..], rest);
      assert [t[0]] + t[1..] == t;
    }
  }

  /** Joining with spaces and splitting on spaces gives the tokens back. */
  lemma {:induction false} SplitJoin(tokens: seq<string>)
    requires tokens != []
    requires forall i :: 0 <= i < |tokens| ==> ' ' !in tokens[i]
    ensures Split(Join(tokens)) == tokens
    decreases |tokens|
  {
    if |tokens| == 1 {
      SplitWord(tokens[0]);
    } else {
      SplitFirst(tokens[0], Join(tokens[1..]));
      SplitJoin(tokens[1..]);
    }
  }

  /**
   * `gameLogStr`. `ties` is `freq(gameLog, GameOutcome.Tie)`, computed by a
   * helper that is not part of this model; `Array(n)` throws for a negative
   * `n`, so the line exists only when `bestOf - ties` is not negative.
   */
  function GameLogLine(gameLog: seq<GameOutcome>, bestOf: int, ties: nat): (r: string)
    requires bestOf - ties >= 0
    ensures r == "" <==> gameLog == [] && bestOf == ties
    ensures r != "" ==> Split(r) == Tokens(gameLog, bestOf - ties)
  {
    var tokens := Tokens(gameLog, bestOf - ties);
    if tokens == [] then ""
    else
      SplitJoin(tokens);
      Join(tokens)
  }

  /** The number of ties in the log, the count `freq(gameLog, GameOutcome.Tie)` is named for. */
  function TieCount(gameLog: seq<GameOutcome>): (r: nat)
    ensures r <= |gameLog|
    decreases |gameLog|
  {
    if gameLog == [] then 0
    else (if gameLog[0] == Tie then 1 else 0) + TieCount(gameLog[1..])
  }

  /** The games that use up one of the `bestOf` slots: those that were not ties. */
  function NonTies(gameLog: seq<GameOutcome>): nat {
    |gameLog| - TieCount(gameLog)
  }

  /**
   * As written, the ties are subtracted from `bestOf`: after one win in a best
   * of 3 the line shows four slots, and four ties in a best of 3 make the
   * placeholder count negative, so `Array` throws and there is no line.
   */
  lemma OneWinShowsFourSlots()
    ensures Split(GameLogLine([Win], 3, TieCount([Win]))) == ["W", Placeholder, Placeholder, Placeholder]
    ensures 3 - TieCount([Tie, Tie, Tie, Tie]) < 0
  {
    var t := Tokens([Win], 3);
    assert t == ["W", Placeholder, Placeholder, Placeholder];
    var ties := [Tie, Tie, Tie, Tie];
    assert ties[1..][1..][1..][1..] == [];
  }

  /**
   * The line with the count the name `nonTies` calls for: `bestOf` minus the
   * games that were not ties. Read that way, a tie does not use up one of the
   * `bestOf` slots, so besides the ties the line has exactly `bestOf` slots,
   * one per game played or still to play.
   */
  function IntendedGameLogLine(gameLog: seq<GameOutcome>, bestOf: int): (r: string)
    requires NonTies(gameLog) <= bestOf
    ensures r == "" <==> gameLog == [] && bestOf == 0
    ensures r != "" ==> |Split(r)| - TieCount(gameLog) == bestOf
    ensures r != "" ==> forall i :: 0 <= i < |gameLog| ==> Split(r)[i] == OutcomeLabel(gameLog[i])
  {
    GameLogLine(gameLog, bestOf, NonTies(gameLog))
  }
}
