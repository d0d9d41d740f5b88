/**
 Finger-state extraction: turns the 21 pixel-space landmarks of one detected
 hand into a vector of five open (1) / closed (0) flags, one per finger.
 */
module Fingers {
  import opened Wrappers

  /** One landmark as the detector reports it: its index in the hand model and its pixel position. */
  datatype Landmark = Landmark(id: int, x: int, y: int)

  /** An open (1) or closed (0) finger flag. */
  type Bit = b: int | 0 <= b <= 1

  /** Flags in the fixed order thumb, index, middle, ring, pinky. */
  type FingerVector = f: seq<Bit> | |f| == 5 witness [0, 0, 0, 0, 0]

  /** Number of landmarks the hand model reports per hand. */
  const HandSize: nat := 21

  /** Pixel margin a tip must clear its joint by to count as open. */
  const Margin: int := 15

  /** Fingertip landmarks, thumb first. */
  const TipIds: seq<nat> := [4, 8, 12, 16, 20]

  /** The joint each fingertip is compared against. */
  const PipIds: seq<nat> := [2, 6, 10, 14, 18]

  /** Why a landmark list cannot be read as a hand. */
  datatype ExtractError = TooFewLandmarks(count: nat)

  /** The vertical test applied pairwise to the (tip, joint) pairs, in order. */
  function FingerBits(lm: seq<Landmark>, tips: seq<nat>, pips: seq<nat>): (r: seq<Bit>)
    requires |tips| == |pips|
    requires forall i :: 0 <= i < |tips| ==> tips[i] < |lm| && pips[i] < |lm|
    ensures |r| == |tips|
    ensures forall i :: 0 <= i < |r| ==> (r[i] == 1 <==> lm[tips[i]].y < lm[pips[i]].y - Margin)
    decreases |tips|
  {
    if |tips| == 0 then []
    else
      var open: Bit := if lm[tips[0]].y < lm[pips[0]].y - Margin then 1 else 0;
      [open] + FingerBits(lm, tips[1..], pips[1..])
  }

  /**
   The finger vector of a hand: the thumb is open when its tip lies more than
   the margin to the left of its joint, every other finger when its tip lies
   more than the margin above its joint (smaller y is higher on screen).
   */
  function CountFingers(lm: seq<Landmark>): (r: FingerVector)
    requires |lm| >= HandSize
    ensures r[0] == 1 <==> lm[4].x < lm[2].x - 15
    ensures r[1] == 1 <==> lm[8].y < lm[6].y - 15
    ensures r[2] == 1 <==> lm[12].y < lm[10].y - 15
    ensures r[3] == 1 <==> lm[16].y < lm[14].y - 15
    ensures r[4] == 1 <==> lm[20].y < lm[18].y - 15
  {
    var thumb: Bit := if lm[TipIds[0]].x < lm[PipIds[0]].x - Margin then 1 else 0;
    [thumb] + FingerBits(lm, TipIds[1..], PipIds[1..])
  }

  /** Extraction with the short-list case made explicit instead of an index error. */
  function Extract(lm: seq<Landmark>): (r: Result<FingerVector, ExtractError>)
    ensures r.Success? <==> |lm| >= HandSize
    ensures r.Success? ==> r.value == CountFingers(lm)
    ensures r.Failure? ==> r.error == TooFewLandmarks(|lm|)
  {
    if |lm| < HandSize then Failure(TooFewLandmarks(|lm|)) else Success(CountFingers(lm))
  }

  /** Every landmark moved by the same offset. */
  function Translate(lm: seq<Landmark>, dx: int, dy: int): seq<Landmark>
  {
    seq(|lm|, i requires 0 <= i < |lm| => lm[i].(x := lm[i].x + dx, y := lm[i].y + dy))
  }

  /** Moving the whole hand does not change which fingers are open. */
  lemma TranslationInvariant(lm: seq<Landmark>, dx: int, dy: int)
    requires |lm| >= HandSize
    ensures |Translate(lm, dx, dy)| == |lm|
    ensures CountFingers(Translate(lm, dx, dy)) == CountFingers(lm)
  {
  }

  /** The ten coordinates the extractor reads on each hand agree. */
  predicate SameJoints(lm: seq<Landmark>, lm': seq<Landmark>)
    requires |lm| >= HandSize && |lm'| >= HandSize
  {
    && lm[4].x == lm'[4].x && lm[2].x == lm'[2].x
    && (forall k :: 1 <= k < 5 ==> lm[TipIds[k]].y == lm'[TipIds[k]].y && lm[PipIds[k]].y == lm'[PipIds[k]].y)
  }

  /** Nothing but those ten coordinates influences the finger vector. */
  lemma OnlyJointsMatter(lm: seq<Landmark>, lm': seq<Landmark>)
    requires |lm| >= HandSize && |lm'| >= HandSize
    requires SameJoints(lm, lm')
    ensures CountFingers(lm) == CountFingers(lm')
  {
  }
}
