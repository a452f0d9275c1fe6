/** The feature indicators of the responsive demo: four non-exclusive flags
    (mobile, tablet, desktop, touch) that `updateActiveFeatures` first clears
    and then sets from the viewport width and the touch capability. */
module Features {
  import opened Responsive

  datatype Feature = Mobile | Tablet | Desktop | Touch

  const SizeFeatures: set<Feature> := {Mobile, Tablet, Desktop}

  /** The indicators the rules switch on. Mobile reaches up to 768
      inclusive, tablet starts at 768, so 768 switches on both. */
  function ActiveFeatures(width: int, touch: bool): (r: set<Feature>)
    ensures Mobile in r <==> width <= 768
    ensures Tablet in r <==> 768 <= width < 1200
    ensures Desktop in r <==> width >= 1200
    ensures Touch in r <==> touch
  {
    (if width <= 768 then {Mobile} else {})
    + (if width >= 768 && width < 1200 then {Tablet} else {})
    + (if width >= 1200 then {Desktop} else {})
    + (if touch then {Touch} else {})
  }

  /** Every width switches on at least one size indicator. */
  lemma SomeSizeFeatureActive(width: int, touch: bool)
    ensures ActiveFeatures(width, touch) * SizeFeatures != {}
  {
  }

  /** Desktop never shares the panel with mobile or tablet; mobile and
      tablet share it at exactly one width, 768. */
  lemma SizeFeatureOverlaps(width: int, touch: bool)
    ensures Desktop in ActiveFeatures(width, touch) ==>
              Mobile !in ActiveFeatures(width, touch) && Tablet !in ActiveFeatures(width, touch)
    ensures (Mobile in ActiveFeatures(width, touch) && Tablet in ActiveFeatures(width, touch)) <==> width == 768
  {
  }

  /** The touch capability only adds or removes the touch indicator. */
  lemma TouchIsIndependent(width: int)
    ensures ActiveFeatures(width, true) == ActiveFeatures(width, false) + {Touch}
    ensures Touch !in ActiveFeatures(width, false)
  {
  }

  /** The size indicators against the breakpoint buckets: desktop is XL,
      tablet is MD or LG, mobile is XS or SM plus the single width 768,
      which the bucket table calls MD. */
  lemma FeaturesFollowBuckets(width: int, touch: bool)
    ensures Desktop in ActiveFeatures(width, touch) <==> Classify(width) == XL
    ensures Tablet in ActiveFeatures(width, touch) <==> Classify(width) in {MD, LG}
    ensures Mobile in ActiveFeatures(width, touch) <==> (Classify(width) in {XS, SM} || width == 768)
  {
  }

  /** The panel of indicator elements. `indicators` are the ones present in
      the document: a rule whose element is missing switches nothing on. */
  class FeaturePanel {
    const indicators: set<Feature>
    var active: set<Feature>

    constructor (present: set<Feature>)
      ensures indicators == present && active == {}
    {
      indicators := present;
      active := {};
    }

    /** `updateActiveFeatures`: clear every flag, then apply the rules. The
        result depends only on the width and touch flag, never on the
        flags left by an earlier call. */
    method UpdateActiveFeatures(width: int, touch: bool)
      modifies this
      ensures active == ActiveFeatures(width, touch) * indicators
    {
      active := {};
      if width <= 768 && Mobile in indicators {
        active := active + {Mobile};
      }
      if width >= 768 && width < 1200 && Tablet in indicators {
        active := active + {Tablet};
      }
      if width >= 1200 && Desktop in indicators {
        active := active + {Desktop};
      }
      if touch && Touch in indicators {
        active := active + {Touch};
      }
    }
  }
}
