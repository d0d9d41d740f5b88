/**
 Gesture classification: an ordered first-match decision list from a finger
 vector to one of six gestures.
 */
module Gestures {
  import opened Fingers

  /** The classifier's six answers; the two one-finger poses carry joke labels. */
  datatype Gesture = Rock | Paper | Scissors | ThumbOnly | MiddleOnly | Invalid

  /** Number of open fingers. */
  function Sum(s: seq<Bit>): nat
  {
    if |s| == 0 then 0 else s[0] + Sum(s[1..])
  }

  /** Rule 1: index and middle open and nothing else. */
  predicate ScissorsRule(f: FingerVector)
  {
    f[1] == 1 && f[2] == 1 && Sum(f) == 2
  }

  /** Rule 2: the thumb is the only open finger. */
  predicate ThumbOnlyRule(f: FingerVector)
  {
    f[0] == 1 && Sum(f) == 1
  }

  /** Rule 3: index, middle, ring and pinky closed; the thumb is not looked at. */
  predicate RockRule(f: FingerVector)
  {
    Sum(f[1..]) == 0
  }

  /** Rule 4: at least four fingers open. */
  predicate PaperRule(f: FingerVector)
  {
    Sum(f) >= 4
  }

  /** Rule 5: the middle finger is the only open finger. */
  predicate MiddleOnlyRule(f: FingerVector)
  {
    f[2] == 1 && Sum(f) == 1
  }

  /**
   The decision list: the first rule that matches decides. Read as mutually
   exclusive patterns: rock is only the closed fist, paper is any hand with
   four or five fingers open, the three one- and two-finger poses are single
   vectors, and the 22 other vectors are invalid.
   */
  function Classify(f: FingerVector): (g: Gesture)
    ensures g == Scissors <==> f == [0, 1, 1, 0, 0]
    ensures g == ThumbOnly <==> f == [1, 0, 0, 0, 0]
    ensures g == Rock <==> f == [0, 0, 0, 0, 0]
    ensures g == Paper <==> f[0] as int + f[1] + f[2] + f[3] + f[4] >= 4
    ensures g == MiddleOnly <==> f == [0, 0, 1, 0, 0]
    ensures g == Invalid <==>
      && 1 <= f[0] as int + f[1] + f[2] + f[3] + f[4] <= 3
      && f != [0, 1, 1, 0, 0] && f != [1, 0, 0, 0, 0] && f != [0, 0, 1, 0, 0]
  {
    SumOfFingers(f);
    if ScissorsRule(f) then Scissors
    else if ThumbOnlyRule(f) then ThumbOnly
    else if RockRule(f) then Rock
    else if PaperRule(f) then Paper
    else if MiddleOnlyRule(f) then MiddleOnly
    else Invalid
  }

  /**
   Classification of a detected hand, in terms of the landmark tests: rock
   exactly when no finger passes its test, scissors exactly when only the
   index and middle fingers do.
   */
  function PlayRps(lm: seq<Landmark>): (g: Gesture)
    requires |lm| >= HandSize
    ensures g == Rock <==>
      && lm[4].x >= lm[2].x - 15 && lm[8].y >= lm[6].y - 15 && lm[12].y >= lm[10].y - 15
      && lm[16].y >= lm[14].y - 15 && lm[20].y >= lm[18].y - 15
    ensures g == Scissors <==>
      && lm[4].x >= lm[2].x - 15 && lm[8].y < lm[6].y - 15 && lm[12].y < lm[10].y - 15
      && lm[16].y >= lm[14].y - 15 && lm[20].y >= lm[18].y - 15
  {
    Classify(CountFingers(lm))
  }

  /** The three strings the computer's move is drawn from. */
  const MoveLabels: seq<string> := ["ROCK", "PAPER", "SCISSORS"]

  /** The text the program shows for each gesture. */
  function Label(g: Gesture): (r: string)
    ensures r in MoveLabels <==> g == Rock || g == Paper || g == Scissors
    ensures r == "INVALID MOVE" <==> g == Invalid
  {
    match g
    case Scissors => "SCISSORS"
    case ThumbOnly => "THANK YOU, I TRY"
    case Rock => "ROCK"
    case Paper => "PAPER"
    case MiddleOnly => "THAT'S NOT VERY NICE"
    case Invalid => "INVALID MOVE"
  }

  /** Comparing labels, as the program does, is the same as comparing gestures. */
  lemma LabelInjective(a: Gesture, b: Gesture)
    ensures Label(a) == Label(b) <==> a == b
  {
  }

  /** The open-finger counts of a whole vector and of its last four entries. */
  lemma {:induction false} SumOfFingers(f: FingerVector)
    ensures Sum(f[1..]) == f[1] as int + f[2] + f[3] + f[4]
    ensures Sum(f) == f[0] as int + f[1] + f[2] + f[3] + f[4]
  {
    assert f[4..][1..] == [];
    assert Sum(f[4..]) == f[4];
    assert f[3..][1..] == f[4..];
    assert Sum(f[3..]) == f[3] as int + f[4];
    assert f[2..][1..] == f[3..];
    assert Sum(f[2..]) == f[2] as int + f[3] + f[4];
    assert f[1..][1..] == f[2..];
  }

  /** The examples the program's rules are written around. */
  lemma ClassifyExamples()
    ensures Classify([0, 1, 1, 0, 0]) == Scissors
    ensures Classify([0, 0, 0, 0, 0]) == Rock
    ensures Classify([1, 1, 1, 1, 1]) == Paper
    ensures Classify([1, 0, 0, 0, 0]) == ThumbOnly
    ensures Classify([0, 0, 1, 0, 0]) == MiddleOnly
    ensures Classify([0, 1, 0, 0, 1]) == Invalid
    ensures Classify([0, 1, 0, 1, 0]) == Invalid
  {
  }

  /** The lone thumb satisfies the rock rule too, but the earlier rule wins. */
  lemma ThumbOnlyShadowsRock()
    ensures RockRule([1, 0, 0, 0, 0]) && ThumbOnlyRule([1, 0, 0, 0, 0])
    ensures Classify([1, 0, 0, 0, 0]) == ThumbOnly
  {
  }

  /** A hand meeting the rock rule is rock unless the thumb is the one open finger. */
  lemma RockUnlessThumbOnly(f: FingerVector)
    requires RockRule(f)
    ensures Classify(f) == Rock <==> !(f[0] == 1 && Sum(f) == 1)
  {
  }

  /**
   The rules overlap on the lone thumb and nowhere else, so rule order
   decides nothing for the other 31 vectors.
   */
  lemma OnlyOverlapIsThumb(f: FingerVector)
    ensures ScissorsRule(f) ==> !ThumbOnlyRule(f) && !RockRule(f) && !PaperRule(f) && !MiddleOnlyRule(f)
    ensures ThumbOnlyRule(f) ==> !PaperRule(f) && !MiddleOnlyRule(f)
    ensures ThumbOnlyRule(f) && RockRule(f) <==> f == [1, 0, 0, 0, 0]
    ensures RockRule(f) ==> !PaperRule(f) && !MiddleOnlyRule(f)
    ensures PaperRule(f) ==> !MiddleOnlyRule(f)
  {
    SumOfFingers(f);
  }
}
