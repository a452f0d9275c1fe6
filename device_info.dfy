/** What the page reports about the viewport: the six information slots
    filled by `updateDeviceInfo` and the one-line summary built by
    `getDeviceInfo` for the welcome notification. The summary has its own
    copy of the width chain and of the orientation rule. */
module DeviceInfo {
  import opened Text
  import opened Responsive

  // Device-type words of the summary line.
  const LargeDesktopWord := "Desktop grande"
  const DesktopWord := "Desktop"
  const TabletWord := "Tablet"
  const LargePhoneWord := "Móvil grande"
  const SmallPhoneWord := "Móvil pequeño"

  function KindLabel(b: Bucket): string {
    match b
    case XL => LargeDesktopWord
    case LG => DesktopWord
    case MD => TabletWord
    case SM => LargePhoneWord
    case XS => SmallPhoneWord
  }

  /** The `deviceType` chain of `getDeviceInfo`: only the words differ
      from `getDeviceTypeName`; the bucket is the same. */
  function DeviceKind(width: int): (r: string)
    ensures r == KindLabel(Classify(width))
  {
    if width >= 1200 then LargeDesktopWord
    else if width >= 992 then DesktopWord
    else if width >= 768 then TabletWord
    else if width >= 576 then LargePhoneWord
    else SmallPhoneWord
  }

  function OrientationWord(o: Orientation): string {
    if o == Landscape then "paisaje" else "retrato"
  }

  function OrientationSlot(o: Orientation): string {
    if o == Landscape then "\U{1F504} Paisaje" else "\U{1F4F1} Retrato"
  }

  function TouchIcon(touch: bool): string {
    if touch then "\U{1F446}" else "\U{1F5B1}\U{FE0F}"
  }

  function TouchSlot(touch: bool): string {
    if touch then "\U{1F446} Sí" else "\U{1F5B1}\U{FE0F} No"
  }

  /** `getDeviceInfo`: "<kind> (<width>x<height>) <touch icon> <orientation>".
      The word is the one of the width's bucket, and the orientation word
      comes from the shared rule. */
  function GetDeviceInfo(width: int, height: int, touch: bool): (r: string)
    ensures r == KindLabel(Classify(width)) + " ("
                 + (IntToString(width) + "x" + IntToString(height) + ") " + TouchIcon(touch) + " ")
                 + OrientationWord(OrientationOf(width, height))
  {
    var orientation := if width > height then "paisaje" else "retrato";
    assert orientation == OrientationWord(OrientationOf(width, height));
    var head := DeviceKind(width) + " (";
    var middle := IntToString(width) + "x" + IntToString(height) + ") " + TouchIcon(touch) + " ";
    head + middle + orientation
  }

  /** The slots of `updateDeviceInfo`, keyed by element id, in the order
      they are written. The ids are distinct; the sizes are the decimal
      widths in pixels, and the four labels come from the width's bucket,
      the shared orientation rule and the touch flag. */
  function DeviceSlots(width: int, height: int, touch: bool): (r: seq<(string, string)>)
    ensures |r| == 6 && DistinctIds(r)
    ensures r[0] == ("screen-width", IntToString(width) + "px")
    ensures r[1] == ("screen-height", IntToString(height) + "px")
    ensures r[2] == ("device-type", DeviceTypeLabel(Classify(width)))
    ensures r[3] == ("orientation", OrientationSlot(OrientationOf(width, height)))
    ensures r[4] == ("touch-support", TouchSlot(touch))
    ensures r[5] == ("current-breakpoint", BreakpointLabel(Classify(width)))
  {
    var r := [ ("screen-width", IntToString(width) + "px"),
      ("screen-height", IntToString(height) + "px"),
      ("device-type", DeviceTypeName(width)),
      ("orientation", if width > height then "\U{1F504} Paisaje" else "\U{1F4F1} Retrato"),
      ("touch-support", if touch then "\U{1F446} Sí" else "\U{1F5B1}\U{FE0F} No"),
      ("current-breakpoint", CurrentBreakpoint(width)) ];
    assert |r[0].0| == 12 && |r[1].0| == 13 && |r[2].0| == 11;
    assert |r[3].0| == 11 && |r[4].0| == 13 && |r[5].0| == 18;
    assert r[1].0[0] == 's' && r[4].0[0] == 't';
    assert r[2].0[0] == 'd' && r[3].0[0] == 'o';
    r
  }

  predicate DistinctIds(entries: seq<(string, string)>) {
    forall i, j :: 0 <= i < j < |entries| ==> entries[i].0 != entries[j].0
  }

  /** Writing `entries`, first to last, over the texts `text`: an id whose
      element is not in the document is skipped. */
  function Written(text: map<string, string>, entries: seq<(string, string)>, present: set<string>): (r: map<string, string>)
    ensures r.Keys == text.Keys + (set k | 0 <= k < |entries| && entries[k].0 in present :: entries[k].0)
    decreases |entries|
  {
    if entries == [] then text
    else
      var next := if entries[0].0 in present then text[entries[0].0 := entries[0].1] else text;
      Written(next, entries[1..], present)
  }

  predicate Mentions(entries: seq<(string, string)>, id: string) {
    exists k :: 0 <= k < |entries| && entries[k].0 == id
  }

  /** With distinct ids, each present slot ends up with its own entry's
      value, and every other element keeps the text it had. */
  lemma {:induction false} WrittenContents(text: map<string, string>, entries: seq<(string, string)>, present: set<string>)
    requires DistinctIds(entries)
    ensures forall k :: 0 <= k < |entries| && entries[k].0 in present ==>
              entries[k].0 in Written(text, entries, present)
              && Written(text, entries, present)[entries[k].0] == entries[k].1
    ensures forall id :: !(id in present && Mentions(entries, id)) ==>
              (id in Written(text, entries, present) <==> id in text)
              && (id in text ==> Written(text, entries, present)[id] == text[id])
    decreases |entries|
  {
    if entries != [] {
      var next := if entries[0].0 in present then text[entries[0].0 := entries[0].1] else text;
      var rest := entries[1..];
      assert DistinctIds(rest);
      WrittenContents(next, rest, present);
      forall k | 0 <= k < |rest| ensures rest[k].0 != entries[0].0 {
        assert rest[k] == entries[k + 1];
      }
      assert !Mentions(rest, entries[0].0);
      forall k | 0 <= k < |entries| && entries[k].0 in present
        ensures entries[k].0 in Written(text, entries, present)
        ensures Written(text, entries, present)[entries[k].0] == entries[k].1
      {
        if k > 0 {
          assert entries[k] == rest[k - 1];
        }
      }
      forall id | !(id in present && Mentions(entries, id))
        ensures id in Written(text, entries, present) <==> id in text
        ensures id in text ==> Written(text, entries, present)[id] == text[id]
      {
        if Mentions(rest, id) {
          var k :| 0 <= k < |rest| && rest[k].0 == id;
          assert entries[k + 1].0 == id;
        }
      }
    }
  }

  /** The information slots of the page; `present` are the ids whose
      element exists in the document. */
  class InfoPanel {
    const present: set<string>
    var text: map<string, string>

    constructor (ids: set<string>, initial: map<string, string>)
      ensures present == ids && text == initial
    {
      present := ids;
      text := initial;
    }

    /** `updateDeviceInfo`: write every slot whose element exists, in order. */
    method UpdateDeviceInfo(width: int, height: int, touch: bool)
      modifies this
      ensures text == Written(old(text), DeviceSlots(width, height, touch), present)
      ensures "device-type" in present ==> "device-type" in text && text["device-type"] == DeviceTypeLabel(Classify(width))
      ensures "current-breakpoint" in present ==> "current-breakpoint" in text && text["current-breakpoint"] == BreakpointLabel(Classify(width))
      ensures "orientation" in present ==> "orientation" in text && text["orientation"] == OrientationSlot(OrientationOf(width, height))
      ensures "touch-support" in present ==> "touch-support" in text && text["touch-support"] == TouchSlot(touch)
    {
      var slots := DeviceSlots(width, height, touch);
      WriteSlots(slots);
      WrittenContents(old(text), slots, present);
      assert slots[2].0 == "device-type" && slots[3].0 == "orientation";
      assert slots[4].0 == "touch-support" && slots[5].0 == "current-breakpoint";
    }

    /** The loop over the id/value pairs: skip an id without an element,
        otherwise set that element's text. */
    method WriteSlots(entries: seq<(string, string)>)
      modifies this
      ensures text == Written(old(text), entries, present)
    {
      var i := 0;
      while i < |entries|
        invariant 0 <= i <= |entries|
        invariant Written(text, entries[i..], present) == Written(old(text), entries, present)
      {
        var (id, value) := entries[i];
        if id in present {
          text := text[id := value];
        }
        assert entries[i..][1..] == entries[i + 1..];
        i := i + 1;
      }
    }
  }
}
