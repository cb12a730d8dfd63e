/**
 * The cursor trail (`components/CursorEffect.tsx`): each mouse move records
 * the position and appends it to the trail, which keeps its last eight
 * points.
 */
module CursorEffect {
  datatype CursorPosition = CursorPosition(x: int, y: int)

  datatype CursorState = CursorState(cursorPosition: CursorPosition, trail: seq<CursorPosition>)

  const TrailLength := 8

  const Initial := CursorState(CursorPosition(0, 0), [])

  function Max(a: int, b: int): int
  {
    if a >= b then a else b
  }

  /** The `setTrail` updater: `[...prev, p].slice(Math.max(length - 8, 0))`. */
  function UpdateTrail(prev: seq<CursorPosition>, p: CursorPosition): seq<CursorPosition>
  {
    var newTrail := prev + [p];
    newTrail[Max(|newTrail| - TrailLength, 0)..]
  }

  /**
   * One update leaves at most eight points, ending with the new one; a
   * shorter trail just grows, and a full one loses exactly its oldest point.
   */
  lemma UpdateTrailFacts(prev: seq<CursorPosition>, p: CursorPosition)
    ensures |UpdateTrail(prev, p)| <= TrailLength
    ensures |UpdateTrail(prev, p)| > 0 && UpdateTrail(prev, p)[|UpdateTrail(prev, p)| - 1] == p
    ensures |prev| < TrailLength ==> UpdateTrail(prev, p) == prev + [p]
    ensures |prev| == TrailLength ==> UpdateTrail(prev, p) == prev[1..] + [p]
  {
    var newTrail := prev + [p];
    if |prev| == TrailLength {
      assert newTrail[1..] == prev[1..] + [p];
    }
  }

  /** `updateCursorPosition` for one mouse move. */
  function OnMouseMove(s: CursorState, p: CursorPosition): CursorState
  {
    CursorState(p, UpdateTrail(s.trail, p))
  }

  /** The state after a sequence of mouse moves from the initial state. */
  function After(moves: seq<CursorPosition>): CursorState
  {
    if moves == [] then Initial else OnMouseMove(After(moves[..|moves| - 1]), moves[|moves| - 1])
  }

  /** The window of the last eight points slides by one when a point arrives. */
  lemma WindowSlides(received: seq<CursorPosition>, p: CursorPosition)
    ensures UpdateTrail(received[Max(|received| - TrailLength, 0)..], p) ==
            (received + [p])[Max(|received| + 1 - TrailLength, 0)..]
  {
    if |received| < TrailLength {
      WindowGrows(received, p);
    } else {
      WindowFull(received, p);
    }
  }

  /** While fewer than eight points were received, the window is everything received. */
  lemma WindowGrows(received: seq<CursorPosition>, p: CursorPosition)
    requires |received| < TrailLength
    ensures UpdateTrail(received[Max(|received| - TrailLength, 0)..], p) == received + [p]
    ensures Max(|received| + 1 - TrailLength, 0) == 0
  {
    assert received[0..] == received;
    UpdateTrailFacts(received, p);
  }

  /** From eight points on, the full window drops its oldest point and takes the new one. */
  lemma WindowFull(received: seq<CursorPosition>, p: CursorPosition)
    requires |received| >= TrailLength
    ensures UpdateTrail(received[|received| - TrailLength..], p) ==
            (received + [p])[|received| + 1 - TrailLength..]
  {
    var m := |received| - TrailLength;
    var t := received[m..];
    UpdateTrailFacts(t, p);
    assert t[1..] == received[m + 1..];
    assert (received + [p])[m + 1..] == received[m + 1..] + [p];
  }

  /**
   * After any sequence of moves the trail is the last `min(8, count)`
   * positions in the order received, and the cursor is at the newest one.
   */
  lemma {:induction false} TrailIsRecentSuffix(moves: seq<CursorPosition>)
    ensures After(moves).trail == moves[Max(|moves| - TrailLength, 0)..]
    ensures moves != [] ==> After(moves).cursorPosition == moves[|moves| - 1]
    decreases |moves|
  {
    if moves != [] {
      var init, p := moves[..|moves| - 1], moves[|moves| - 1];
      assert moves == init + [p];
      TrailIsRecentSuffix(init);
      WindowSlides(init, p);
    }
  }

  /** The trail never holds more than eight points. */
  lemma TrailBounded(moves: seq<CursorPosition>)
    ensures |After(moves).trail| <= TrailLength
    ensures |After(moves).trail| == if |moves| < TrailLength then |moves| else TrailLength
  {
    TrailIsRecentSuffix(moves);
  }
}
