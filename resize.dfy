/** The `mobile-device` and `touch-device` classes of the page body. The
    mobile class follows `width <= 768`; each time it is switched on the
    mobile optimisations run once more (and each run attaches another click
    handler to every card, so the number of runs is observable). */
module Resize {
  import opened Features

  datatype MobileState = MobileState(mobileDevice: bool, optimizationRuns: nat)

  predicate IsMobileWidth(width: int) {
    width <= 768
  }

  /** `handleResize`: switch the class on when the width turns mobile
      (running the optimisations), off when it stops being mobile. */
  function ResizeStep(s: MobileState, width: int): (r: MobileState)
    ensures r.mobileDevice == IsMobileWidth(width)
    ensures r.optimizationRuns == s.optimizationRuns + (if IsMobileWidth(width) && !s.mobileDevice then 1 else 0)
  {
    if IsMobileWidth(width) && !s.mobileDevice then MobileState(true, s.optimizationRuns + 1)
    else if !IsMobileWidth(width) && s.mobileDevice then s.(mobileDevice := false)
    else s
  }

  /** A second resize to the same width changes nothing: the optimisations
      do not run again while the page stays mobile. */
  lemma ResizeStepIdempotent(s: MobileState, width: int)
    ensures ResizeStep(ResizeStep(s, width), width) == ResizeStep(s, width)
  {
  }

  /** The mobile class and the mobile feature indicator use the same rule. */
  lemma MobileClassMatchesIndicator(s: MobileState, width: int, touch: bool)
    ensures ResizeStep(s, width).mobileDevice <==> Mobile in ActiveFeatures(width, touch)
  {
  }

  /** A series of resize events, applied in order. */
  function ResizeRun(s: MobileState, widths: seq<int>): MobileState
    decreases |widths|
  {
    if widths == [] then s else ResizeRun(ResizeStep(s, widths[0]), widths[1..])
  }

  /** Whether the page was mobile just before the `i`-th resize: the
      starting flag before the first, the previous width after that. */
  function MobileBefore(start: bool, widths: seq<int>, i: nat): bool
    requires i < |widths|
  {
    if i == 0 then start else IsMobileWidth(widths[i - 1])
  }

  /** The number of resizes, among the first `n`, that enter the mobile range. */
  function Entries(start: bool, widths: seq<int>, n: nat): nat
    requires n <= |widths|
  {
    if n == 0 then 0
    else Entries(start, widths, n - 1)
         + (if IsMobileWidth(widths[n - 1]) && !MobileBefore(start, widths, n - 1) then 1 else 0)
  }

  lemma {:induction false} ResizeRunSnoc(s: MobileState, widths: seq<int>, w: int)
    ensures ResizeRun(s, widths + [w]) == ResizeStep(ResizeRun(s, widths), w)
    decreases |widths|
  {
    if widths != [] {
      assert (widths + [w])[1..] == widths[1..] + [w];
      ResizeRunSnoc(ResizeStep(s, widths[0]), widths[1..], w);
    }
  }

  /** Over any series of resizes the class ends up reflecting the last
      width, and the optimisations ran once per entry into the mobile
      range, never on a resize that stays mobile. */
  lemma {:induction false} ResizeRunCountsEntries(s: MobileState, widths: seq<int>)
    ensures widths != [] ==> ResizeRun(s, widths).mobileDevice == IsMobileWidth(widths[|widths| - 1])
    ensures ResizeRun(s, widths).optimizationRuns
              == s.optimizationRuns + Entries(s.mobileDevice, widths, |widths|)
    decreases |widths|
  {
    if widths != [] {
      var n := |widths| - 1;
      var prefix := widths[..n];
      assert widths == prefix + [widths[n]];
      ResizeRunSnoc(s, prefix, widths[n]);
      ResizeRunCountsEntries(s, prefix);
      EntriesPrefix(s.mobileDevice, widths, n);
      var before := ResizeRun(s, prefix);
      assert before.mobileDevice == MobileBefore(s.mobileDevice, widths, n);
    }
  }

  /** `Entries` over a prefix only looks at the prefix. */
  lemma {:induction false} EntriesPrefix(start: bool, widths: seq<int>, n: nat)
    requires n <= |widths|
    ensures Entries(start, widths[..n], n) == Entries(start, widths, n)
    decreases n
  {
    if n > 0 {
      EntriesPrefix(start, widths, n - 1);
      assert widths[..n][..n - 1] == widths[..n - 1];
      EntriesPrefix(start, widths[..n], n - 1);
    }
  }

  /** The body's device classes and the number of optimisation runs. */
  class Page {
    var mobileDevice: bool
    var touchDevice: bool
    var mobileOptimizationRuns: nat
    var touchOptimizationRuns: nat

    function MobileView(): MobileState
      reads this
    {
      MobileState(mobileDevice, mobileOptimizationRuns)
    }

    /** The body before the script runs, assumed to carry neither the
        `mobile-device` nor the `touch-device` class. */
    constructor ()
      ensures !mobileDevice && !touchDevice
      ensures mobileOptimizationRuns == 0 && touchOptimizationRuns == 0
    {
      mobileDevice := false;
      touchDevice := false;
      mobileOptimizationRuns := 0;
      touchOptimizationRuns := 0;
    }

    /** `initResponsiveFeatures`: tag a touch device and a mobile width,
        running the matching optimisations once each. */
    method InitResponsiveFeatures(width: int, touch: bool)
      modifies this
      ensures touchDevice == (old(touchDevice) || touch)
      ensures touchOptimizationRuns == old(touchOptimizationRuns) + (if touch then 1 else 0)
      ensures mobileDevice == (old(mobileDevice) || IsMobileWidth(width))
      ensures mobileOptimizationRuns == old(mobileOptimizationRuns) + (if IsMobileWidth(width) then 1 else 0)
    {
      if touch {
        touchDevice := true;
        touchOptimizationRuns := touchOptimizationRuns + 1;
      }
      if width <= 768 {
        mobileDevice := true;
        mobileOptimizationRuns := mobileOptimizationRuns + 1;
      }
    }

    /** `handleResize`, for the class it maintains. */
    method HandleResize(width: int)
      modifies this
      ensures MobileView() == ResizeStep(old(MobileView()), width)
      ensures touchDevice == old(touchDevice) && touchOptimizationRuns == old(touchOptimizationRuns)
    {
      var isMobileNow := width <= 768;
      if isMobileNow && !mobileDevice {
        mobileDevice := true;
        mobileOptimizationRuns := mobileOptimizationRuns + 1;
      } else if !isMobileNow && mobileDevice {
        mobileDevice := false;
      }
    }
  }
}
