/**
 * The active tab and how it moves: the tabs (nav links and their step panels), the
 * ArrowUp/ArrowDown keyboard navigation, and the status tracker.
 */
module Navigation {
  import opened Wrappers
  import opened Lookup
  import Progress

  /** JavaScript's `%`: the remainder takes the sign of the dividend. */
  function JsRem(x: int, n: int): int
    requires n > 0
  {
    if x >= 0 then x % n else -((-x) % n)
  }

  datatype Key = ArrowDown | ArrowUp | OtherKey

  /** `newIndex` for an arrow key, from the active index (-1 when no link is active) and the number of links. */
  function NavTarget(key: Key, active: int, n: int): int
    requires key != OtherKey && n > 0
  {
    if key == ArrowDown then JsRem(active + 1, n) else JsRem(active - 1 + n, n)
  }

  /** ArrowDown moves to the next link and wraps from the last to the first. */
  lemma ArrowDownWraps(active: int, n: int)
    requires n > 0 && -1 <= active < n
    ensures NavTarget(ArrowDown, active, n) == if active + 1 < n then active + 1 else 0
  {
  }

  /**
   * ArrowUp moves to the previous link and wraps from the first to the last.
   * With no active link it lands on the second-to-last one (the last when there is only one).
   */
  lemma ArrowUpWraps(active: int, n: int)
    requires n > 0 && -1 <= active < n
    ensures NavTarget(ArrowUp, active, n) == if active >= 1 then active - 1 else if active == 0 then n - 1 else if n >= 2 then n - 2 else 0
  {
    if active == -1 && n == 1 {
      assert JsRem(-1, 1) == 0;
    }
  }

  /** Whatever the active index, an arrow key yields an index of an existing link. */
  lemma NavTargetInRange(key: Key, active: int, n: int)
    requires key != OtherKey && n > 0 && -1 <= active < n
    ensures 0 <= NavTarget(key, active, n) < n
  {
    ArrowDownWraps(active, n);
    ArrowUpWraps(active, n);
  }

  /** ArrowDown then ArrowUp, or ArrowUp then ArrowDown, returns to the same link. */
  lemma ArrowRoundTrip(i: int, n: int)
    requires 0 <= i < n
    ensures NavTarget(ArrowUp, NavTarget(ArrowDown, i, n), n) == i
    ensures NavTarget(ArrowDown, NavTarget(ArrowUp, i, n), n) == i
  {
    ArrowDownWraps(i, n);
    ArrowUpWraps(i, n);
    ArrowDownWraps(NavTarget(ArrowUp, i, n), n);
    ArrowUpWraps(NavTarget(ArrowDown, i, n), n);
  }

  /**
   * The status tracker's percentage `Math.round(stepIndex / (n - 1) * 100)`;
   * None where it is not a finite number (a single link divides by zero).
   * With no links at all the index is -1 and the quotient -1 / -1 gives 100.
   */
  function TrackerProgress(stepIndex: int, n: int): Option<int>
    requires -1 <= stepIndex < n
  {
    if n >= 2 then Some(Progress.RoundDiv(100 * stepIndex, n - 1))
    else if n == 0 then Some(100)
    else None
  }

  /**
   * With two or more links and a link index 0..n-1, the percentage runs from
   * 0 at the first step to 100 at the last, in 0..100.
   */
  lemma TrackerProgressBounds(stepIndex: int, n: int)
    requires n >= 2 && 0 <= stepIndex < n
    ensures TrackerProgress(stepIndex, n).Some?
    ensures 0 <= TrackerProgress(stepIndex, n).value <= 100
    ensures stepIndex == 0 ==> TrackerProgress(stepIndex, n).value == 0
    ensures stepIndex == n - 1 ==> TrackerProgress(stepIndex, n).value == 100
  {
    Progress.RoundDivBounds(100 * stepIndex, n - 1, 100);
    if stepIndex == 0 {
      Progress.RoundDivExact(0, n - 1);
    }
    if stepIndex == n - 1 {
      Progress.RoundDivExact(100, n - 1);
    }
  }

  /**
   * With two or more links and no link for the current step (index -1, as at
   * start-up on a page without an 'intake' link), the percentage is negative
   * down to -100, and rounds to 0 only once there are more than 200 links.
   */
  lemma TrackerProgressNoCurrentLink(n: int)
    requires n >= 2
    ensures TrackerProgress(-1, n).Some?
    ensures -100 <= TrackerProgress(-1, n).value <= 0
    ensures TrackerProgress(-1, n).value < 0 <==> n <= 200
  {
    var d := n - 1;
    var r := Progress.RoundDiv(-100, d);
    Progress.RoundDivNearest(-100, d);
    if r < -100 {
      Progress.ProductSign(d, r + 100);
    }
    if r > 0 {
      Progress.ProductSign(d, r);
    }
    if n <= 200 && r == 0 {
      assert false;
    }
  }

  /** Later steps never show a smaller percentage. */
  lemma TrackerProgressMonotone(i: int, j: int, n: int)
    requires n >= 2 && 0 <= i <= j < n
    ensures TrackerProgress(i, n).value <= TrackerProgress(j, n).value
  {
    var d := n - 1;
    var ri, rj := Progress.RoundDiv(100 * i, d), Progress.RoundDiv(100 * j, d);
    Progress.RoundDivNearest(100 * i, d);
    Progress.RoundDivNearest(100 * j, d);
    Progress.ProductSign(d, 2 * ri - 2 * rj - 2);
    assert d * (2 * ri - 2 * rj - 2) == 2 * d * ri - 2 * d * (rj + 1);
  }

  /** The text of a `.status-step-status`. */
  datatype StatusLabel = Pending | InProgress

  /** The page's navigation state. */
  class Page {
    const linkSteps: seq<string>       // `data-step` of each `.nav-link`, in document order
    const linkActive: array<bool>      // whether each link has the `active` class
    const panelIds: seq<string>        // `id` of each `.step-content`
    const panelShown: array<bool>      // whether each panel is displayed
    const statusSteps: seq<string>     // `data-step` of each `.status-step`
    const statusLabels: array<StatusLabel>
    var progress: Option<int>          // the percentage on the progress bar

    ghost predicate Valid()
      reads this
    {
      && linkActive.Length == |linkSteps|
      && panelShown.Length == |panelIds|
      && statusLabels.Length == |statusSteps|
      && linkActive != panelShown
    }

    constructor (linkSteps: seq<string>, panelIds: seq<string>, statusSteps: seq<string>)
      ensures Valid()
      ensures this.linkSteps == linkSteps && this.panelIds == panelIds && this.statusSteps == statusSteps
      ensures forall k :: 0 <= k < linkActive.Length ==> !linkActive[k]
      ensures forall j :: 0 <= j < panelShown.Length ==> !panelShown[j]
      ensures forall j :: 0 <= j < statusLabels.Length ==> statusLabels[j] == Pending
      ensures progress == None
      ensures fresh(linkActive) && fresh(panelShown) && fresh(statusLabels)
    {
      this.linkSteps := linkSteps;
      this.panelIds := panelIds;
      this.statusSteps := statusSteps;
      linkActive := new bool[|linkSteps|](_ => false);
      panelShown := new bool[|panelIds|](_ => false);
      statusLabels := new StatusLabel[|statusSteps|](_ => Pending);
      progress := None;
    }

    /** `updateStatusTracker`: every status step Pending except the first one for `current`, and the new percentage. */
    method UpdateStatusTracker(current: string)
      requires Valid()
      modifies statusLabels, `progress
      ensures Valid()
      ensures forall j :: 0 <= j < statusLabels.Length ==>
                statusLabels[j] == if j == IndexOf(statusSteps, current) then InProgress else Pending
      ensures progress == TrackerProgress(IndexOf(linkSteps, current), |linkSteps|)
    {
      var j := 0;
      while j < statusLabels.Length
        invariant 0 <= j <= statusLabels.Length
        invariant forall m :: 0 <= m < j ==> statusLabels[m] == Pending
      {
        statusLabels[j] := Pending;
        j := j + 1;
      }
      var found := FindIndex(statusSteps, current);
      if found >= 0 {
        statusLabels[found] := InProgress;
      }
      var stepIndex := FindIndex(linkSteps, current);
      var n := |linkSteps|;
      progress := if n >= 2 then Some(Progress.RoundDiv(100 * stepIndex, n - 1))
                  else if n == 0 then Some(100)
                  else None;
    }

    /**
     * A click on link `i`: exactly that link becomes active, every panel is
     * hidden but the one whose id is the link's step, and when that panel
     * exists the status tracker follows it.
     */
    method ClickTab(i: nat)
      requires Valid() && i < |linkSteps|
      modifies linkActive, panelShown, statusLabels, `progress
      ensures Valid()
      ensures forall k :: 0 <= k < linkActive.Length ==> linkActive[k] == (k == i)
      ensures forall j :: 0 <= j < panelShown.Length ==> panelShown[j] == (j == IndexOf(panelIds, linkSteps[i]))
      ensures linkSteps[i] in panelIds ==>
                (forall j :: 0 <= j < statusLabels.Length ==>
                   statusLabels[j] == if j == IndexOf(statusSteps, linkSteps[i]) then InProgress else Pending)
                && progress == TrackerProgress(IndexOf(linkSteps, linkSteps[i]), |linkSteps|)
      ensures linkSteps[i] !in panelIds ==> unchanged(statusLabels) && progress == old(progress)
    {
      var target := linkSteps[i];
      var k := 0;
      while k < linkActive.Length
        invariant 0 <= k <= linkActive.Length
        invariant forall m :: 0 <= m < k ==> !linkActive[m]
        invariant unchanged(statusLabels) && progress == old(progress)
      {
        linkActive[k] := false;
        k := k + 1;
      }
      linkActive[i] := true;
      var j := 0;
      while j < panelShown.Length
        invariant 0 <= j <= panelShown.Length
        invariant forall m :: 0 <= m < j ==> !panelShown[m]
        invariant forall m :: 0 <= m < linkActive.Length ==> linkActive[m] == (m == i)
        invariant unchanged(statusLabels) && progress == old(progress)
      {
        panelShown[j] := false;
        j := j + 1;
      }
      var p := FindIndex(panelIds, target);
      if p >= 0 {
        panelShown[p] := true;
        UpdateStatusTracker(target);
      }
    }

    /** The index of the first active link, or -1. */
    method ActiveIndex() returns (k: int)
      requires Valid()
      ensures k == IndexOf(linkActive[..], true)
      ensures k >= 0 ==> linkActive[k] && forall m :: 0 <= m < k ==> !linkActive[m]
    {
      k := FindIndex(linkActive[..], true);
      if k >= 0 {
        forall m | 0 <= m < k ensures !linkActive[m] {
          assert linkActive[..][..k][m] == linkActive[m];
        }
      }
    }

    /**
     * The keydown handler: an arrow key clicks the link at the new index and
     * reports success; other keys do nothing. With no links the source's
     * `navLinks[NaN].click()` throws, which is reported as `ok == false`.
     */
    method KeyDown(key: Key) returns (ok: bool)
      requires Valid()
      modifies linkActive, panelShown, statusLabels, `progress
      ensures Valid()
      ensures ok <==> key == OtherKey || |linkSteps| > 0
      ensures key == OtherKey || |linkSteps| == 0 ==>
                unchanged(linkActive) && unchanged(panelShown) && unchanged(statusLabels) && progress == old(progress)
      ensures key != OtherKey && |linkSteps| > 0 ==>
                var target := NavTarget(key, old(IndexOf(linkActive[..], true)), |linkSteps|);
                0 <= target < |linkSteps|
                && (forall k :: 0 <= k < linkActive.Length ==> linkActive[k] == (k == target))
                && (forall j :: 0 <= j < panelShown.Length ==> panelShown[j] == (j == IndexOf(panelIds, linkSteps[target])))
                && (linkSteps[target] in panelIds ==>
                      (forall j :: 0 <= j < statusLabels.Length ==>
                         statusLabels[j] == if j == IndexOf(statusSteps, linkSteps[target]) then InProgress else Pending)
                      && progress == TrackerProgress(IndexOf(linkSteps, linkSteps[target]), |linkSteps|))
                && (linkSteps[target] !in panelIds ==> unchanged(statusLabels) && progress == old(progress))
    {
      if key == OtherKey {
        return true;
      }
      var n := |linkSteps|;
      if n == 0 {
        return false;
      }
      var active := ActiveIndex();
      var newIndex := if key == ArrowDown then JsRem(active + 1, n) else JsRem(active - 1 + n, n);
      NavTargetInRange(key, active, n);
      ClickTab(newIndex);
      ok := true;
    }

    /** Page start-up: the first link is made active and the tracker is set to 'intake'. */
    method Initialize()
      requires Valid()
      modifies linkActive, statusLabels, `progress
      ensures Valid()
      ensures |linkSteps| > 0 ==>
                linkActive[0]
                && (forall k :: 1 <= k < linkActive.Length ==> linkActive[k] == old(linkActive[k]))
                && (forall j :: 0 <= j < statusLabels.Length ==>
                      statusLabels[j] == if j == IndexOf(statusSteps, "intake") then InProgress else Pending)
                && progress == TrackerProgress(IndexOf(linkSteps, "intake"), |linkSteps|)
      ensures |linkSteps| == 0 ==> unchanged(linkActive) && unchanged(statusLabels) && progress == old(progress)
    {
      if |linkSteps| > 0 {
        linkActive[0] := true;
        UpdateStatusTracker("intake");
      }
    }
  }

  /** When exactly one flag is set, the first-occurrence search for `true` finds it. */
  lemma SingleActiveLink(active: seq<bool>, target: int)
    requires 0 <= target < |active|
    requires forall k :: 0 <= k < |active| ==> active[k] == (k == target)
    ensures IndexOf(active, true) == target
  {
    assert forall m :: 0 <= m < target ==> active[..target][m] == active[m];
    assert true !in active[..target];
    IndexOfUnique(active, true, target);
  }
}
