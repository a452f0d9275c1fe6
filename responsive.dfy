/** The responsive breakpoint classifier: an integer viewport width falls
    into one of five buckets, with inclusive lower thresholds 576, 768, 992
    and 1200 checked from the widest down. Two label functions of the page
    (device type and breakpoint) each repeat the same if-chain; here each is
    written as its own chain and proved to pick the bucket `Classify` picks. */
module Responsive {

  datatype Bucket = XS | SM | MD | LG | XL

  /** Position of a bucket, narrowest first. */
  function Rank(b: Bucket): nat {
    match b
    case XS => 0
    case SM => 1
    case MD => 2
    case LG => 3
    case XL => 4
  }

  /** The width table read as half-open intervals, independent of the order
      in which a chain tests its thresholds. */
  predicate Covers(b: Bucket, width: int) {
    match b
    case XS => width < 576
    case SM => 576 <= width < 768
    case MD => 768 <= width < 992
    case LG => 992 <= width < 1200
    case XL => 1200 <= width
  }

  /** The shared classification engine: first threshold met, widest first. */
  function Classify(width: int): (b: Bucket)
    ensures Covers(b, width)
  {
    if width >= 1200 then XL
    else if width >= 992 then LG
    else if width >= 768 then MD
    else if width >= 576 then SM
    else XS
  }

  /** Every width lies in exactly one interval of the table, the one `Classify` picks. */
  lemma ExactlyOneBucket(width: int, b: Bucket)
    ensures Covers(b, width) <==> b == Classify(width)
  {
  }

  lemma ClassifyMonotone(w1: int, w2: int)
    requires w1 <= w2
    ensures Rank(Classify(w1)) <= Rank(Classify(w2))
  {
  }

  /** Widths of zero or below, which a browser never reports, still land in XS. */
  lemma NonPositiveWidthIsXS(width: int)
    requires width <= 0
    ensures Classify(width) == XS
  {
  }

  // Device-type labels shown in the `device-type` slot.
  const DesktopXLName := "\U{1F5A5}\U{FE0F} Desktop XL"
  const DesktopName := "\U{1F4BB} Desktop"
  const TabletName := "\U{1F4CB} Tablet"
  const LargePhoneName := "\U{1F4F1} Móvil Grande"
  const SmallPhoneName := "\U{1F4F1} Móvil Pequeño"

  function DeviceTypeLabel(b: Bucket): string {
    match b
    case XL => DesktopXLName
    case LG => DesktopName
    case MD => TabletName
    case SM => LargePhoneName
    case XS => SmallPhoneName
  }

  /** `getDeviceTypeName`: its own chain, agreeing with `Classify`. */
  function DeviceTypeName(width: int): (r: string)
    ensures r == DeviceTypeLabel(Classify(width))
  {
    if width >= 1200 then DesktopXLName
    else if width >= 992 then DesktopName
    else if width >= 768 then TabletName
    else if width >= 576 then LargePhoneName
    else SmallPhoneName
  }

  // Breakpoint labels shown in the `current-breakpoint` slot.
  const XLName := "XL (≥1200px)"
  const LGName := "LG (≥992px)"
  const MDName := "MD (≥768px)"
  const SMName := "SM (≥576px)"
  const XSName := "XS (<576px)"

  function BreakpointLabel(b: Bucket): string {
    match b
    case XL => XLName
    case LG => LGName
    case MD => MDName
    case SM => SMName
    case XS => XSName
  }

  /** `getCurrentBreakpoint`: its own chain, agreeing with `Classify`. */
  function CurrentBreakpoint(width: int): (r: string)
    ensures r == BreakpointLabel(Classify(width))
  {
    if width >= 1200 then XLName
    else if width >= 992 then LGName
    else if width >= 768 then MDName
    else if width >= 576 then SMName
    else XSName
  }

  /** Distinct buckets have distinct labels, so a label names its bucket. */
  lemma LabelsIdentifyBucket(b1: Bucket, b2: Bucket)
    ensures DeviceTypeLabel(b1) == DeviceTypeLabel(b2) <==> b1 == b2
    ensures BreakpointLabel(b1) == BreakpointLabel(b2) <==> b1 == b2
  {
  }

  /** The two slots never disagree: two widths get the same device-type
      name exactly when they get the same breakpoint name. */
  lemma NamesAgree(w1: int, w2: int)
    ensures DeviceTypeName(w1) == DeviceTypeName(w2) <==> CurrentBreakpoint(w1) == CurrentBreakpoint(w2)
    ensures DeviceTypeName(w1) == DeviceTypeName(w2) <==> Classify(w1) == Classify(w2)
  {
    LabelsIdentifyBucket(Classify(w1), Classify(w2));
  }

  datatype Orientation = Landscape | Portrait

  /** `width > height` is landscape; anything else, a square included, is portrait. */
  function OrientationOf(width: int, height: int): (o: Orientation)
    ensures o == Landscape <==> width > height
  {
    if width > height then Landscape else Portrait
  }

  /** Rotating the viewport (swapping its sides) flips the orientation,
      except on a square, which is portrait both ways. */
  lemma RotationFlipsOrientation(width: int, height: int)
    ensures width != height ==> OrientationOf(height, width) != OrientationOf(width, height)
    ensures width == height ==> OrientationOf(width, height) == Portrait
    ensures OrientationOf(width, height) == Portrait || OrientationOf(height, width) == Portrait
  {
  }
}
