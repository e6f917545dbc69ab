/** The pull-to-refresh wrapper: three state cells updated by the touch
    listeners, and the indicator and label derived from them. Pointer
    positions are the events' `clientY` and the window's `scrollY`. */
module PullToRefresh {

  /** How far a pull must go to trigger a refresh. */
  const Threshold: real := 80.0

  /** The farthest a pull is drawn: `threshold * 1.5`. */
  const MaxPull: real := Threshold * 1.5

  /** The indicator is drawn once the pull passes 10 pixels. */
  const IndicatorMin: real := 10.0

  const RefreshingLabel: string := "Refreshing..."
  const ReleaseLabel: string := "Release to refresh"
  const PullLabel: string := "Pull to refresh"

  function Min(a: real, b: real): (r: real)
    ensures r <= a && r <= b && (r == a || r == b)
  {
    if a <= b then a else b
  }

  /** The indicator is drawn once the pull passes 10 pixels: any pull past
      the threshold is on screen, and a cleared pull is not. */
  function ShowIndicator(pullDistance: real): (r: bool)
    ensures pullDistance > Threshold ==> r
    ensures pullDistance <= 0.0 ==> !r
    ensures r <==> pullDistance > IndicatorMin
  {
    pullDistance > IndicatorMin
  }

  /** The label under the indicator. */
  function Label(isRefreshing: bool, pullDistance: real): (r: string)
    ensures isRefreshing ==> r == RefreshingLabel
    ensures r == ReleaseLabel <==> !isRefreshing && pullDistance > Threshold
    ensures r == PullLabel <==> !isRefreshing && pullDistance <= Threshold
  {
    if isRefreshing then RefreshingLabel
    else if pullDistance > Threshold then ReleaseLabel
    else PullLabel
  }

  /** Whenever the label invites the user to release, the indicator is on
      screen to show it, and the pull lies above the threshold and within
      the cap. */
  lemma ReleaseLabelShown(isRefreshing: bool, pullDistance: real)
    requires 0.0 <= pullDistance <= MaxPull
    ensures Label(isRefreshing, pullDistance) == ReleaseLabel ==>
      ShowIndicator(pullDistance) && Threshold < pullDistance <= 120.0
  {
  }

  /** How the `onRefresh` promise settled. */
  datatype RefreshOutcome = Fulfilled | Rejected

  /** The component's state cells `pullDistance`, `isRefreshing` and `startY`. */
  class PullState {
    var pullDistance: real
    var isRefreshing: bool
    var startY: real

    /** A drawn pull is never negative and never beyond the cap. */
    predicate Valid()
      reads this
    {
      0.0 <= pullDistance <= MaxPull
    }

    constructor()
      ensures Valid()
      ensures pullDistance == 0.0 && !isRefreshing && startY == 0.0
    {
      pullDistance := 0.0;
      isRefreshing := false;
      startY := 0.0;
    }

    /** `handleTouchStart`: a touch at the top of the page records where it
      began; elsewhere nothing changes. */
    method TouchStart(scrollY: real, clientY: real)
      modifies this`startY
      ensures startY == if scrollY == 0.0 then clientY else old(startY)
    {
      if scrollY == 0.0 {
        startY := clientY;
      }
    }

    /** `handleTouchMove`: while not refreshing and after a recorded start, a
      downward move at the top of the page draws the pull, capped at
      `MaxPull`, and suppresses scrolling (`prevented`). A start recorded at
      `clientY` 0 counts as no start. */
    method TouchMove(scrollY: real, clientY: real) returns (prevented: bool)
      requires Valid()
      modifies this`pullDistance
      ensures Valid()
      ensures prevented <==> !isRefreshing && startY != 0.0 && clientY - startY > 0.0 && scrollY == 0.0
      ensures pullDistance == if prevented then Min(clientY - startY, MaxPull) else old(pullDistance)
    {
      prevented := false;
      if isRefreshing || startY == 0.0 {
        return;
      }
      var distance := clientY - startY;
      if distance > 0.0 && scrollY == 0.0 {
        prevented := true;
        pullDistance := Min(distance, MaxPull);
      }
    }

    /** `handleTouchEnd`: a pull past the threshold while not refreshing
      starts a refresh (`started`) and leaves the pull drawn; any other
      release clears the pull and the start. */
    method TouchEnd() returns (started: bool)
      requires Valid()
      modifies this
      ensures Valid()
      ensures started <==> old(pullDistance) > Threshold && !old(isRefreshing)
      ensures started ==> isRefreshing && pullDistance == old(pullDistance) && startY == old(startY)
      ensures !started ==> !ShowIndicator(pullDistance) && pullDistance == 0.0 && startY == 0.0
                           && isRefreshing == old(isRefreshing)
    {
      started := pullDistance > Threshold && !isRefreshing;
      if started {
        isRefreshing := true;
      } else {
        pullDistance := 0.0;
        startY := 0.0;
      }
    }

    /** The `finally` of a refresh: once `onRefresh` settles, fulfilled or
      rejected, every cell is back to its initial value. */
    method RefreshSettled(outcome: RefreshOutcome)
      modifies this
      ensures Valid()
      ensures !isRefreshing && pullDistance == 0.0 && startY == 0.0
    {
      isRefreshing := false;
      pullDistance := 0.0;
      startY := 0.0;
    }
  }
}
