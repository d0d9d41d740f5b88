/**
 The round controller of the game loop, as a pure per-frame transition. A
 round starts when a hand shows a valid gesture different from the previous
 one; only then is a computer move drawn and the result scored.
 */
module Rounds {
  import opened Wrappers
  import opened Fingers
  import opened Gestures

  /** A computer move: only rock, paper or scissors are ever drawn. */
  type Move = g: Gesture | g.Rock? || g.Paper? || g.Scissors? witness Rock

  /** The result of a round, from the player's side. */
  datatype Outcome = Draw | Win | Lose

  /** What one frame contributes: no hand, or the gesture of the detected hand. */
  datatype Frame = NoHand | Seen(gesture: Gesture)

  /**
   The loop's state: the last gesture that started a round (None after a
   frame without a hand), the current computer move and the last result
   (None until the first round).
   */
  datatype RoundState = RoundState(prev: Option<Gesture>, computer: Move, result: Option<Outcome>)

  /** Each move mapped to the move it beats. */
  const WinningPairs: map<Gesture, Move> := map[Rock := Scissors, Scissors := Paper, Paper := Rock]

  /**
   The state the loop keeps between frames: the shown result exists whenever
   a previous gesture does and is that gesture scored against the current
   computer move, and INVALID MOVE never becomes the previous gesture.
   */
  predicate Inv(s: RoundState)
  {
    match s.prev
    case None => true
    case Some(g) => g != Invalid && s.result == Some(Score(g, s.computer))
  }

  /** The state before the first frame, given the program's opening draw. */
  function Init(draw: Move): (s: RoundState)
    ensures Inv(s)
    ensures s.prev.None? && s.result.None? && s.computer == draw
  {
    RoundState(None, draw, None)
  }

  /**
   The player's gesture against the computer's move: equal moves draw, only
   the three moves can win, and a gesture outside the table always loses.
   */
  function Score(g: Gesture, c: Move): (r: Outcome)
    ensures r == Draw <==> g == c
    ensures r == Win ==> (g == Rock || g == Paper || g == Scissors) && g != c
    ensures g !in WinningPairs ==> r == Lose
  {
    if g == c then Draw
    else if g in WinningPairs && WinningPairs[g] == c then Win
    else Lose
  }

  /** The frames on which a new round starts. */
  predicate StartsRound(s: RoundState, frame: Frame)
  {
    frame.Seen? && frame.gesture != Invalid && s.prev != Some(frame.gesture)
  }

  /**
   One frame of the loop. `draw` is what the random choice yields on this
   frame; it is used only when a round starts, the only time the loop draws.
   The opening draw before the loop is the parameter of `Init`.
   */
  function Step(s: RoundState, frame: Frame, draw: Move): (r: RoundState)
    ensures Inv(s) ==> Inv(r)
    ensures r.computer == s.computer || r.computer == draw
    ensures frame.Seen? && frame.gesture != Invalid ==> r.prev == Some(frame.gesture)
  {
    match frame
    case NoHand => s.(prev := None)
    case Seen(g) =>
      if g != Invalid && Some(g) != s.prev then RoundState(Some(g), draw, Some(Score(g, draw)))
      else s
  }

  /**
   The loop over a run of frames, each paired with its frame's draw. The
   computer move is the starting one or one of the draws, and the recorded
   gesture reflects the last frame: none after a frame without a hand, the
   gesture itself after a valid one.
   */
  function Run(s: RoundState, frames: seq<Frame>, draws: seq<Move>): (r: RoundState)
    requires |draws| == |frames|
    ensures r.computer == s.computer || r.computer in draws
    ensures |frames| > 0 && frames[|frames| - 1] == NoHand ==> r.prev.None?
    ensures |frames| > 0 && frames[|frames| - 1].Seen? && frames[|frames| - 1].gesture != Invalid ==>
      r.prev == Some(frames[|frames| - 1].gesture)
    decreases |frames|
  {
    if |frames| == 0 then s else Run(Step(s, frames[0], draws[0]), frames[1..], draws[1..])
  }

  /** What is drawn over a frame: player gesture, computer move and result, each possibly absent. */
  datatype Overlay = Overlay(player: Option<Gesture>, computer: Option<Move>, result: Option<Outcome>)

  /**
   The overlay drawn after the state update: nothing of the game without a
   hand; otherwise the gesture and the computer move, and the result when a
   previous gesture is set. The invariant is what makes reading the result
   safe there.
   */
  function Render(s: RoundState, frame: Frame): (o: Overlay)
    requires Inv(s)
    ensures frame.NoHand? ==> o == Overlay(None, None, None)
    ensures o.result.Some? ==> frame.Seen? && s.prev.Some? && o.result == Some(Score(s.prev.value, s.computer))
    ensures frame.Seen? && s.prev.Some? ==> o.result.Some?
  {
    match frame
    case NoHand => Overlay(None, None, None)
    case Seen(g) => Overlay(Some(g), Some(s.computer), if s.prev.Some? then Some(s.result.value) else None)
  }

  /** Position of a move on the rock-paper-scissors cycle; each move beats its predecessor. */
  function Ord(m: Move): int
  {
    match m
    case Rock => 0
    case Paper => 1
    case Scissors => 2
  }

  /** The winning-pairs table is the usual cyclic rule between the three moves. */
  lemma ScoreIsCyclic(g: Move, c: Move)
    ensures Score(g, c) == Draw <==> (Ord(g) - Ord(c)) % 3 == 0
    ensures Score(g, c) == Win <==> (Ord(g) - Ord(c)) % 3 == 1
    ensures Score(g, c) == Lose <==> (Ord(g) - Ord(c)) % 3 == 2
  {
  }

  /** Swapping the two sides turns a win into a loss and keeps a draw. */
  lemma ScoreAntisymmetric(a: Move, b: Move)
    ensures Score(a, b) == Win <==> Score(b, a) == Lose
    ensures Score(a, b) == Draw <==> Score(b, a) == Draw
  {
  }

  /** The two one-finger poses are not in the table and lose to every move. */
  lemma SpecialGesturesLose(g: Gesture, c: Move)
    requires g == ThumbOnly || g == MiddleOnly || g == Invalid
    ensures Score(g, c) == Lose
  {
  }

  /** An invalid gesture, or the gesture already on record, leaves the whole state alone. */
  lemma IgnoredFrameKeepsState(s: RoundState, g: Gesture, draw: Move)
    requires g == Invalid || s.prev == Some(g)
    ensures Step(s, Seen(g), draw) == s
  {
  }

  /** Showing the same gesture on the next frame changes nothing, whatever is drawn. */
  lemma RepeatIsIdempotent(s: RoundState, g: Gesture, d1: Move, d2: Move)
    ensures Step(Step(s, Seen(g), d1), Seen(g), d2) == Step(s, Seen(g), d1)
  {
  }

  /**
   A new round records the gesture, adopts the draw as the computer move and
   scores it: a draw on equal moves, a win exactly when the table says the
   gesture beats the move, a loss otherwise.
   */
  lemma NewRoundScores(s: RoundState, g: Gesture, draw: Move)
    requires StartsRound(s, Seen(g))
    ensures Step(s, Seen(g), draw).prev == Some(g)
    ensures Step(s, Seen(g), draw).computer == draw
    ensures Step(s, Seen(g), draw).result == Some(Draw) <==> g == draw
    ensures Step(s, Seen(g), draw).result == Some(Win) <==> g in WinningPairs && WinningPairs[g] == draw
    ensures Step(s, Seen(g), draw).result == Some(Lose) <==> g != draw && !(g in WinningPairs && WinningPairs[g] == draw)
  {
  }

  /** Outside a new round the computer move and the result never change. */
  lemma OnlyNewRoundsChangeTheGame(s: RoundState, frame: Frame, draw: Move)
    requires !StartsRound(s, frame)
    ensures Step(s, frame, draw).computer == s.computer
    ensures Step(s, frame, draw).result == s.result
  {
  }

  /** A frame without a hand forgets the previous gesture and nothing else. */
  lemma NoHandResets(s: RoundState, draw: Move)
    ensures Step(s, NoHand, draw) == s.(prev := None)
  {
  }

  /** After a frame without a hand, showing the same gesture again starts a new round. */
  lemma NoHandThenSameGestureRedraws(s: RoundState, g: Gesture, d1: Move, d2: Move)
    requires g != Invalid
    ensures StartsRound(Step(s, NoHand, d1), Seen(g))
    ensures Step(Step(s, NoHand, d1), Seen(g), d2) == RoundState(Some(g), d2, Some(Score(g, d2)))
  {
  }

  /** Rock, then paper against a freshly drawn rock, is a win for the player. */
  lemma RockThenPaperAgainstRockWins(d: Move)
    ensures Run(Init(d), [Seen(Rock), Seen(Paper)], [d, Rock]) == RoundState(Some(Paper), Rock, Some(Win))
  {
  }

  /** Every reachable state satisfies the invariant. */
  lemma {:induction false} RunPreservesInv(s: RoundState, frames: seq<Frame>, draws: seq<Move>)
    requires |draws| == |frames|
    requires Inv(s)
    ensures Inv(Run(s, frames, draws))
    decreases |frames|
  {
    if |frames| > 0 {
      RunPreservesInv(Step(s, frames[0], draws[0]), frames[1..], draws[1..]);
    }
  }

  /** Frames that show only invalid gestures or the recorded gesture leave the state alone. */
  lemma {:induction false} HoldingGestureKeepsState(s: RoundState, frames: seq<Frame>, draws: seq<Move>)
    requires |draws| == |frames|
    requires forall i :: 0 <= i < |frames| ==> frames[i].Seen? && !StartsRound(s, frames[i])
    ensures Run(s, frames, draws) == s
    decreases |frames|
  {
    if |frames| > 0 {
      assert Step(s, frames[0], draws[0]) == s;
      forall i | 0 <= i < |frames[1..]|
        ensures frames[1..][i].Seen? && !StartsRound(s, frames[1..][i])
      {
        assert frames[1..][i] == frames[i + 1];
      }
      HoldingGestureKeepsState(s, frames[1..], draws[1..]);
    }
  }

  /** After a valid gesture, the overlay shows that gesture, the computer move and their score. */
  lemma ValidFrameShowsItsScore(s: RoundState, g: Gesture, draw: Move)
    requires Inv(s)
    requires g != Invalid
    ensures Render(Step(s, Seen(g), draw), Seen(g)) ==
            Overlay(Some(g), Some(Step(s, Seen(g), draw).computer), Some(Score(g, Step(s, Seen(g), draw).computer)))
  {
  }

  /**
   Reading a landmark list as a frame: an empty list is a frame without a
   hand, a full hand is classified, and a non-empty list that is too short
   for the extractor is an error rather than a gesture.
   */
  function Observe(lm: seq<Landmark>): (r: Result<Frame, ExtractError>)
    ensures r == Success(NoHand) <==> |lm| == 0
    ensures r.Failure? <==> 0 < |lm| < HandSize
    ensures |lm| >= HandSize ==> r == Success(Seen(PlayRps(lm)))
  {
    if |lm| == 0 then Success(NoHand)
    else
      match Extract(lm)
      case Failure(e) => Failure(e)
      case Success(f) => Success(Seen(Classify(f)))
  }
}
