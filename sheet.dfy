/** The snap logic of the bottom sheet in
    `src/components/common/Sheet.tsx`: snap points as screen offsets, the
    pan clamp, the release decision (nearest snap point, velocity nudge,
    close threshold), `snapTo` and the overlay press.

    Offsets are exact reals. `translateY` holds the target the sheet is
    animated to; the spring and timing animations themselves are not
    modelled, and a call of `onClose` is counted. */
module Sheet {

  function Abs(x: real): real {
    if x < 0.0 then -x else x
  }

  function MaxReal(a: real, b: real): real {
    if a >= b then a else b
  }

  /** `snapPoints.map((point) => SCREEN_HEIGHT * (1 - point))`. */
  function SnapPixels(screenHeight: real, snapPoints: seq<real>): (px: seq<real>)
    ensures |px| == |snapPoints|
    ensures forall i | 0 <= i < |px| :: px[i] == screenHeight * (1.0 - snapPoints[i])
  {
    if snapPoints == [] then []
    else [screenHeight * (1.0 - snapPoints[0])] + SnapPixels(screenHeight, snapPoints[1..])
  }

  /** A larger fraction of the screen means a smaller offset from the top. */
  lemma SnapPixelsAntitone(screenHeight: real, snapPoints: seq<real>, i: int, j: int)
    requires screenHeight > 0.0
    requires 0 <= i < |snapPoints| && 0 <= j < |snapPoints|
    requires snapPoints[i] < snapPoints[j]
    ensures SnapPixels(screenHeight, snapPoints)[i] > SnapPixels(screenHeight, snapPoints)[j]
  {
    var px := SnapPixels(screenHeight, snapPoints);
    var d := snapPoints[j] - snapPoints[i];
    assert px[i] - px[j] == screenHeight * d by {
      assert px[i] == screenHeight * (1.0 - snapPoints[i]);
      assert px[j] == screenHeight * (1.0 - snapPoints[j]);
    }
    PositiveProduct(screenHeight, d);
  }

  lemma PositiveProduct(a: real, b: real)
    requires a > 0.0 && b > 0.0
    ensures a * b > 0.0
  {
  }

  /** `i` is the snap point nearest to `y`, and no earlier one is as near:
      the strict comparison of the search keeps the lowest index on a tie. */
  predicate IsClosest(y: real, snapPx: seq<real>, i: int) {
    && 0 <= i < |snapPx|
    && (forall j | 0 <= j < |snapPx| :: Abs(y - snapPx[i]) <= Abs(y - snapPx[j]))
    && (forall j | 0 <= j < i :: Abs(y - snapPx[j]) > Abs(y - snapPx[i]))
  }

  /** There is only one such index. */
  lemma IsClosestUnique(y: real, snapPx: seq<real>, i: int, k: int)
    requires IsClosest(y, snapPx, i) && 0 <= k < |snapPx| && k != i
    ensures !IsClosest(y, snapPx, k)
  {
    if k < i {
      assert Abs(y - snapPx[k]) > Abs(y - snapPx[i]);
    } else {
      assert Abs(y - snapPx[i]) <= Abs(y - snapPx[k]);
    }
  }

  /** The search loop of the release handler. */
  method ClosestSnapIndex(currentY: real, snapPx: seq<real>) returns (closestSnapIndex: int)
    requires |snapPx| >= 1
    ensures IsClosest(currentY, snapPx, closestSnapIndex)
  {
    closestSnapIndex := 0;
    var minDistance := Abs(currentY - snapPx[0]);
    var i := 1;
    while i < |snapPx|
      invariant 1 <= i <= |snapPx|
      invariant 0 <= closestSnapIndex < i
      invariant minDistance == Abs(currentY - snapPx[closestSnapIndex])
      invariant forall j | 0 <= j < i :: minDistance <= Abs(currentY - snapPx[j])
      invariant forall j | 0 <= j < closestSnapIndex :: Abs(currentY - snapPx[j]) > minDistance
    {
      var distance := Abs(currentY - snapPx[i]);
      if distance < minDistance {
        minDistance := distance;
        closestSnapIndex := i;
      }
      i := i + 1;
    }
  }

  /** The velocity nudge: a fast downward release moves one snap point
      down (towards index 0), a fast upward one moves one up, and the
      index stays a valid one. */
  function Nudge(index: int, velocity: real, count: int): (r: int)
    requires 0 <= index < count
    ensures 0 <= r < count
    ensures velocity > 500.0 && index > 0 ==> r == index - 1
    ensures !(velocity > 500.0 && index > 0) && velocity < -500.0 && index < count - 1 ==> r == index + 1
    ensures -500.0 <= velocity <= 500.0 ==> r == index
    ensures r - 1 <= index <= r + 1
  {
    if velocity > 500.0 && index > 0 then index - 1
    else if velocity < -500.0 && index < count - 1 then index + 1
    else index
  }

  /** What a release does: close, or spring to a snap offset. */
  datatype Release = Close | SpringTo(offset: real)

  /** The sheet closes exactly when released more than 100 below the
      first snap point or flung down faster than 1000. */
  predicate ClosesOn(currentY: real, velocity: real, snapPx: seq<real>)
    requires |snapPx| >= 1
  {
    currentY > snapPx[0] + 100.0 || velocity > 1000.0
  }

  /** The release handler's decision. */
  method OnEnd(currentY: real, velocity: real, snapPx: seq<real>) returns (action: Release, closest: int)
    requires |snapPx| >= 1
    ensures IsClosest(currentY, snapPx, closest)
    ensures action == Close <==> ClosesOn(currentY, velocity, snapPx)
    ensures action != Close ==> action == SpringTo(snapPx[Nudge(closest, velocity, |snapPx|)])
  {
    closest := ClosestSnapIndex(currentY, snapPx);
    var closestSnapIndex := closest;
    if velocity > 500.0 && closestSnapIndex > 0 {
      closestSnapIndex := if 0 >= closestSnapIndex - 1 then 0 else closestSnapIndex - 1;
    } else if velocity < -500.0 && closestSnapIndex < |snapPx| - 1 {
      closestSnapIndex := if |snapPx| - 1 <= closestSnapIndex + 1 then |snapPx| - 1 else closestSnapIndex + 1;
    }
    if currentY > snapPx[0] + 100.0 || velocity > 1000.0 {
      action := Close;
    } else {
      action := SpringTo(snapPx[closestSnapIndex]);
    }
  }

  class Sheet {
    const screenHeight: real
    const snapPx: seq<real>
    const closeOnOverlayPress: bool
    var translateY: real
    /** How many times `onClose` has been called. */
    var closeCalls: nat

    constructor (screenHeight: real, snapPoints: seq<real>, closeOnOverlayPress: bool)
      ensures this.screenHeight == screenHeight && snapPx == SnapPixels(screenHeight, snapPoints)
      ensures this.closeOnOverlayPress == closeOnOverlayPress
      ensures translateY == screenHeight && closeCalls == 0
    {
      this.screenHeight := screenHeight;
      snapPx := SnapPixels(screenHeight, snapPoints);
      this.closeOnOverlayPress := closeOnOverlayPress;
      translateY := screenHeight;
      closeCalls := 0;
    }

    /** `snapTo(index)`: only an index of a snap point moves the sheet. */
    method SnapTo(index: int)
      modifies this`translateY
      ensures 0 <= index < |snapPx| ==> translateY == snapPx[index]
      ensures !(0 <= index < |snapPx|) ==> translateY == old(translateY)
    {
      if index >= 0 && index < |snapPx| {
        translateY := snapPx[index];
      }
    }

    /** A pan update follows the finger but never above the highest snap point. */
    method PanUpdate(translationY: real)
      requires |snapPx| >= 1
      modifies this`translateY
      ensures translateY == MaxReal(snapPx[|snapPx| - 1], translationY)
      ensures translateY >= snapPx[|snapPx| - 1]
    {
      translateY := if snapPx[|snapPx| - 1] >= translationY then snapPx[|snapPx| - 1] else translationY;
    }

    /** The end of a pan: the sheet either closes (calling `onClose` once
        and heading off screen) or springs to the chosen snap point. */
    method PanEnd(velocity: real)
      requires |snapPx| >= 1
      modifies this
      ensures ClosesOn(old(translateY), velocity, snapPx) ==>
                translateY == screenHeight && closeCalls == old(closeCalls) + 1
      ensures !ClosesOn(old(translateY), velocity, snapPx) ==> closeCalls == old(closeCalls)
      ensures !ClosesOn(old(translateY), velocity, snapPx) ==>
                exists i | IsClosest(old(translateY), snapPx, i) :: translateY == snapPx[Nudge(i, velocity, |snapPx|)]
    {
      var action, closest := OnEnd(translateY, velocity, snapPx);
      if action == Close {
        translateY := screenHeight;
        closeCalls := closeCalls + 1;
      } else {
        translateY := action.offset;
      }
    }

    method OverlayPress()
      modifies this`closeCalls
      ensures closeCalls == old(closeCalls) + (if closeOnOverlayPress then 1 else 0)
    {
      if closeOnOverlayPress {
        closeCalls := closeCalls + 1;
      }
    }
  }
}
