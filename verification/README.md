# Hand-gesture rock-paper-scissors: the decision core

A webcam game detects a hand and reads the 21 landmarks the hand model
reports. It turns them into five open/closed finger flags and classifies
those flags as a gesture. Then it plays rock-paper-scissors against a
randomly drawn computer move. This Dafny project models the three pieces of
that program's own logic in `tracking_mod.py`:

- `Fingers`: `HandDetector.count_fingers`. It reads landmarks `[id, x, y]`
  as `Landmark` values and produces a `FingerVector` of five `0`/`1`
  flags. The flags are in the order thumb, index, middle, ring, pinky, and
  every test uses the margin of 15 pixels.
- `Gestures`: `HandDetector.play_rps`. It is the ordered first-match
  decision list, with one named predicate per rule. `Label` holds the
  text the program shows for each gesture.
- `Rounds`: the round logic inlined in `main`, written as a pure step
  `Step(state, frame, draw)`. The state holds `prev_gesture`,
  `computer_play` and `result_text`, and `Frame` says whether a hand was
  seen. `draw` is the value `random.choice` returns on that frame; it is
  used only when a round starts. `Run` folds `Step` over a sequence of
  frames. `Render` says which of gesture, computer move and result the
  overlay shows.
- `Wrappers`: `Option` (Python's `None`) and `Result`.

Python lists are indexed by position. The model indexes the landmark list
the same way, and a landmark's `id` is carried but never read. On a list
shorter than 21 entries, `count_fingers` raises an index error. `Extract`
and `Observe` return that case as an `ExtractError`, and `CountFingers`
itself requires a full hand. The program's `len(lm_list) > 0` guard is the
empty-list case of `Observe`.

## Model

| member | source | states |
|---|---|---|
| Fingers.FingerBits | tracking_mod.py:58-59 | one flag per (tip, joint) pair, in order; a flag is 1 exactly when the tip's y is less than the joint's y minus the margin (the tip is higher on screen) |
| Fingers.CountFingers | tracking_mod.py:49-61 | five flags; thumb open iff landmark 4's x < landmark 2's x - 15; index, middle, ring, pinky open iff the y of tip 8/12/16/20 < the y of joint 6/10/14/18 - 15 |
| Fingers.Extract | tracking_mod.py:55-59 | succeeds exactly on lists of at least 21 landmarks, then with the finger vector; fails on a short list, reporting its length |
| Fingers.TranslationInvariant | tracking_mod.py:55-59 | moving every landmark by the same (dx, dy) leaves the finger vector unchanged |
| Fingers.OnlyJointsMatter | tracking_mod.py:50-59 | two hands that agree on the ten coordinates the tests read have the same finger vector |
| Gestures.SumOfFingers | tracking_mod.py:66-79 | `sum(fingers)` and `sum(fingers[1:])` are the open counts of all five and of the last four fingers |
| Gestures.Classify | tracking_mod.py:66-82 | the first-match decision list read as exclusive patterns: SCISSORS only for index+middle, the thumb label only for the lone thumb, ROCK only for the closed fist, PAPER iff four or more open, the middle-finger label only for the lone middle finger, INVALID MOVE exactly for the other vectors with one to three open fingers |
| Gestures.PlayRps | tracking_mod.py:63-82 | on a full hand: ROCK exactly when no finger passes its landmark test, SCISSORS exactly when only the index and middle tests pass |
| Gestures.Label | tracking_mod.py:68-82 | a gesture's label is one of the strings the computer's move is drawn from (line 92) iff it is ROCK, PAPER or SCISSORS; it is "INVALID MOVE", the string line 104 rejects, iff the gesture is invalid |
| Gestures.ClassifyExamples | tracking_mod.py:66-82 | the labelled vectors: [0,1,1,0,0] SCISSORS, [0,0,0,0,0] ROCK, [1,1,1,1,1] PAPER, [1,0,0,0,0] thumb label, [0,0,1,0,0] middle label, [0,1,0,0,1] and [0,1,0,1,0] INVALID MOVE |
| Gestures.ThumbOnlyShadowsRock | tracking_mod.py:70-74 | the lone thumb meets both the thumb rule and the ROCK rule and is classified by the earlier thumb rule |
| Gestures.RockUnlessThumbOnly | tracking_mod.py:70-74 | a vector whose four non-thumb fingers are closed is ROCK iff the thumb is not the only open finger |
| Gestures.OnlyOverlapIsThumb | tracking_mod.py:66-80 | the five rules overlap only on the lone thumb (rules 2 and 3), so rule order matters for that vector alone |
| Gestures.LabelInjective | tracking_mod.py:68-82 | distinct gestures have distinct labels, so the program's string comparisons compare gestures |
| Rounds.Init | tracking_mod.py:91-92 | the starting state has no previous gesture and no result, and the opening draw as its computer move; it satisfies the invariant |
| Rounds.Step | tracking_mod.py:100-121 | preserves the invariant; the computer move is either kept or becomes the draw; after a valid gesture, that gesture is the previous one |
| Rounds.Render | tracking_mod.py:100-121 | no game text without a hand; a result is shown only with a hand and a previous gesture, and then always, as that gesture scored against the computer move |
| Rounds.Observe | tracking_mod.py:99-101 | an empty landmark list is a no-hand frame; a full hand is the frame of its classified gesture; a non-empty short list is an error |
| Rounds.Score | tracking_mod.py:108-113 | DRAW iff the gesture equals the computer move; only the three moves can win, and never against themselves; a gesture with no winning-pairs entry always loses |
| Rounds.Run | tracking_mod.py:96-121 | over any run of frames, the computer move is the starting one or one of the draws; after a final no-hand frame no gesture is recorded, after a final valid gesture that gesture is recorded |
| Rounds.ScoreIsCyclic | tracking_mod.py:94-113 | between two moves: DRAW iff equal, WIN iff the player's move is one step ahead on the rock→paper→scissors cycle, LOSE iff two steps ahead |
| Rounds.ScoreAntisymmetric | tracking_mod.py:94 | swapping the sides turns a win into a loss and keeps a draw |
| Rounds.SpecialGesturesLose | tracking_mod.py:108-113 | the thumb and middle-finger gestures (and INVALID MOVE) lose against every computer move |
| Rounds.IgnoredFrameKeepsState | tracking_mod.py:104 | an INVALID MOVE frame, or a frame repeating the recorded gesture, leaves previous gesture, computer move and result unchanged |
| Rounds.RepeatIsIdempotent | tracking_mod.py:104-106 | feeding the same gesture on two frames in a row equals feeding it once, whatever the second draw |
| Rounds.NewRoundScores | tracking_mod.py:104-113 | a new round records the gesture, adopts the draw and scores DRAW iff equal, WIN iff the winning-pairs entry of the gesture is the draw, LOSE otherwise |
| Rounds.OnlyNewRoundsChangeTheGame | tracking_mod.py:104-113 | on any frame that does not start a round, computer move and result stay as they were |
| Rounds.NoHandResets | tracking_mod.py:120-121 | a frame without a hand sets the previous gesture to None and changes nothing else |
| Rounds.NoHandThenSameGestureRedraws | tracking_mod.py:100-121 | after a no-hand frame the same valid gesture starts a new round, with the new draw |
| Rounds.RockThenPaperAgainstRockWins | tracking_mod.py:104-111 | from the start, ROCK and then PAPER against a freshly drawn ROCK ends with PAPER recorded and a WIN |
| Rounds.RunPreservesInv | tracking_mod.py:91-121 | over any run of frames, a recorded gesture is never INVALID MOVE and always has its result, which is its score against the computer move |
| Rounds.HoldingGestureKeepsState | tracking_mod.py:104 | any run of frames showing only INVALID MOVE or the recorded gesture leaves the state unchanged |
| Rounds.ValidFrameShowsItsScore | tracking_mod.py:115-119 | after a frame with a valid gesture, the overlay shows that gesture, the computer move and exactly their score |

## Left out

- `HandDetector.__init__`, `find_hands`, `find_position` (tracking_mod.py:8-47): calls into MediaPipe and OpenCV. The model takes the integer landmark list as input, so the float-to-pixel scaling is not modelled.
- `random.choice`: each draw is a parameter. The opening draw at tracking_mod.py:92 is the parameter of `Init`. Inside the loop, `Step` takes one draw per frame and reads it only when a round starts, the only time the loop draws.
- Frame capture, FPS timing and `cv2.putText`/`imshow` (tracking_mod.py:97-98, 102-103, 115-119, 123-131). `Render` records which items are shown, not the text or its position.
- Result strings ("DRAW!", "YOU WIN!", "YOU LOSE!"): modelled as the `Outcome` datatype.
- hand_rps_tracker.py: an unfinished capture script with no decision logic. Its module-level code uses undefined names and does not parse.
- The infinite loop of `main`: `Run` models any finite prefix of it.
