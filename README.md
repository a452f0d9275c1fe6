# Responsive classifier and page state of the CSS exposition script

`script.js` drives a static teaching page about CSS. Most of it is browser
glue, but a small part of it decides things:

- **Responsive** (`responsive.dfy`): the breakpoint classifier. A viewport
  width falls into one of five buckets (XS, SM, MD, LG, XL). The lower
  thresholds are 576, 768, 992 and 1200, and they are checked from the
  widest down. `getDeviceTypeName` and `getCurrentBreakpoint` each repeat
  this if-chain with their own labels. Each is modelled as its own chain and
  proved to pick the bucket of the shared `Classify`. The orientation rule
  is `width > height` for landscape, otherwise portrait.
- **Features** (`features.dfy`): `updateActiveFeatures` clears every
  indicator, then switches on mobile (`width <= 768`), tablet
  (`768 <= width < 1200`), desktop (`width >= 1200`) and touch. These flags
  are not exclusive.
- **DeviceInfo** (`device_info.dfy`): the six information slots written by
  `updateDeviceInfo`, and the one-line summary of `getDeviceInfo`. The
  summary has a third copy of the width chain and a second copy of the
  orientation rule.
- **Theme** (`theme.dfy`): the dark theme. The state is the `dark-theme`
  body class, the `theme` entry of the browser's key-value store (a string
  map here) and the toggle button's icon.
- **Resize** (`resize.dfy`): the `mobile-device` body class, which tracks
  `width <= 768`. `initResponsiveFeatures` sets it at load and
  `handleResize` keeps it in sync. The mobile optimisations run on each
  entry into the mobile range. Each run attaches one more click handler to
  every card, so the model counts the runs.
- **LineNumbers** (`line_numbers.dfy`): the line-number gutter of
  `initCodeHighlighting`. The block text is split on the two characters
  backslash and `n`, exactly as the source writes it. This is not the
  newline character. The gutter lists `1<br>` up to `(pieces-1)<br>`.
- **Text** (`text.dfy`): decimal rendering of integers, as a template
  literal `${n}` writes them for every integer below 10^21 in magnitude,
  which covers every size a browser reports.

The page's inputs are parameters of the model: the viewport size, the touch
capability, the stored map, and which elements exist in the document.

The mobile feature and the `mobile-device` class test `width <= 768`
(script.js:123, script.js:196), while the breakpoint chains put 768 in MD.
So width 768 switches on both the mobile and the tablet indicator, and it
sets the `mobile-device` class, while both labels call it MD/Tablet.

## Model

| member | source | states |
|---|---|---|
| Responsive.Classify | script.js:95-109 | the bucket chosen by the first threshold met, widest first, is the interval of the width table that contains the width |
| Responsive.ExactlyOneBucket | script.js:95-109 | every integer width lies in exactly one bucket interval, the one `Classify` returns |
| Responsive.ClassifyMonotone | script.js:95-109 | a wider viewport never gets a narrower bucket |
| Responsive.NonPositiveWidthIsXS | script.js:95-109 | zero and negative widths fall through to XS |
| Responsive.DeviceTypeName | script.js:95-101 | the `getDeviceTypeName` chain returns the device-type label of the bucket `Classify` picks |
| Responsive.CurrentBreakpoint | script.js:103-109 | the `getCurrentBreakpoint` chain returns the breakpoint label of the bucket `Classify` picks |
| Responsive.LabelsIdentifyBucket | script.js:95-109 | distinct buckets have distinct device-type labels and distinct breakpoint labels |
| Responsive.NamesAgree | script.js:95-109 | two widths get the same device-type name iff they get the same breakpoint name iff they are in the same bucket |
| Responsive.OrientationOf | script.js:67 | the orientation is landscape iff the width exceeds the height; `getDeviceInfo` repeats the same test at script.js:532 |
| Responsive.RotationFlipsOrientation | script.js:67-74 | swapping unequal sides flips the orientation; equal sides are portrait; at most one of the two orderings is landscape |
| Features.ActiveFeatures | script.js:123-141 | mobile is active iff width <= 768, tablet iff 768 <= width < 1200, desktop iff width >= 1200, touch iff the touch flag is set |
| Features.SomeSizeFeatureActive | script.js:123-136 | every width switches on at least one of mobile, tablet and desktop |
| Features.SizeFeatureOverlaps | script.js:123-136 | desktop never comes with mobile or tablet; mobile and tablet are both on exactly at width 768 |
| Features.TouchIsIndependent | script.js:138-141 | the touch flag only adds or removes the touch indicator |
| Features.FeaturesFollowBuckets | script.js:95-136 | desktop is XL; tablet is MD or LG; mobile is XS or SM, plus width 768 |
| Features.FeaturePanel.UpdateActiveFeatures | script.js:111-142 | afterwards the active set is the rule set restricted to the indicators present, whatever was active before |
| DeviceInfo.DeviceKind | script.js:537-547 | the `deviceType` chain of `getDeviceInfo` returns the summary word of the bucket `Classify` picks |
| DeviceInfo.GetDeviceInfo | script.js:528-550 | the summary is the bucket's word, " (", width "x" height in decimal, ") ", the touch icon, a space and the orientation word of the shared rule |
| DeviceInfo.DeviceSlots | script.js:70-77 | six slots with distinct ids, in order: width and height in decimal pixels, the bucket's device-type label, the orientation label of the shared rule, the touch label of the flag, the bucket's breakpoint label |
| DeviceInfo.Written | script.js:79-84 | after writing, the elements with text are those that had text plus the present ids among the entries |
| DeviceInfo.WrittenContents | script.js:79-84 | writing distinct-id slots gives each present slot its own value, and every other element keeps its text |
| DeviceInfo.InfoPanel.WriteSlots | script.js:79-84 | the loop over the entries leaves the texts that writing them first to last gives, skipping absent elements |
| DeviceInfo.InfoPanel.UpdateDeviceInfo | script.js:63-84 | every present slot among device type, breakpoint, orientation and touch shows its label; the other elements keep their text |
| Theme.Toggle | script.js:278-293 | the dark flag flips; afterwards the stored theme is `dark` iff dark and the icon is the sun iff dark; other stored keys are untouched |
| Theme.ToggleInvolution | script.js:278-293 | two toggles restore the dark flag, and from a consistent state they restore the whole state |
| Theme.InitTheme | script.js:295-302 | the store is untouched; the page is dark afterwards iff it was dark or the stored theme is `dark`, in which case the icon is the sun; any other or missing value changes nothing |
| Theme.InitThemeStable | script.js:295-302 | the init is idempotent and leaves a consistent state as it is |
| Theme.ReloadRestoresTheme | script.js:278-302 | loading a page over the store that a consistent state left behind restores that theme |
| Theme.ThemeController.InitThemeToggle | script.js:295-302 | the controller's state after init is `InitTheme` of the state before |
| Theme.ThemeController.ToggleTheme | script.js:278-293 | the controller's state after a toggle is `Toggle` of the state before, and is consistent |
| Resize.ResizeStep | script.js:194-204 | after a resize the mobile class is on iff width <= 768; the run count grows by one iff the page went from non-mobile to mobile, and otherwise stays |
| Resize.ResizeStepIdempotent | script.js:194-204 | a repeated resize to the same width changes nothing |
| Resize.MobileClassMatchesIndicator | script.js:194-204 | the mobile class after a resize agrees with the mobile feature indicator for the same width |
| Resize.ResizeRunCountsEntries | script.js:194-204 | over any series of resizes, the class reflects the last width and the optimisations ran once per entry into the mobile range |
| Resize.Page.InitResponsiveFeatures | script.js:22-35 | at load, a touch device gets its class and one run of the touch optimisations; a width <= 768 gets the mobile class and one run of the mobile optimisations |
| Resize.Page.HandleResize | script.js:194-204 | the mobile class and run count move as `ResizeStep` says; the touch state is untouched |
| LineNumbers.Split | script.js:558 | splitting gives at least one piece, and the first piece is a prefix of the text |
| LineNumbers.JoinSplit | script.js:558 | joining the pieces with the separator gives back the text |
| LineNumbers.SplitPiecesClean | script.js:558 | no piece contains the separator |
| LineNumbers.SplitJoin | script.js:558 | splitting the join of separator-free pieces gives back those pieces |
| LineNumbers.PieceCount | script.js:558-559 | there is one more piece than there are separator occurrences |
| LineNumbers.NoBackslashNoSeparator | script.js:558-559 | a text without a backslash, such as one with real newlines, is a single piece, so its block gets no gutter |
| LineNumbers.Gutter | script.js:579-583 | the gutter for n lines holds exactly n `<` characters, and is empty iff there is no line |
| LineNumbers.BuildLineNumbers | script.js:557-587 | a block gets a gutter iff its text has a separator, and the gutter numbers one line per separator, from 1 upwards |
| Text.NatToString | script.js:71-72 | the rendering is non-empty and all digits, with a leading zero only for 0, which renders as the single digit "0" |
| Text.ParseNatToString | script.js:71-72 | reading the digits back gives the number |
| Text.IntToString | script.js:549 | canonical decimal: no leading zero, 0 as the single digit "0", a negative number as a minus sign followed by the digits of its absolute value; reading back gives the number |

## Left out

- DOM lookups are not modelled as such. A missing optional element becomes "not in the present set" for the feature indicators and the information slots. The theme button is assumed present: the source dereferences it without a check (script.js:297-315).
- `updateActiveFeatures` clears `.feature-item` elements and activates the first `[data-breakpoint=…]` match. The model assumes those are the same elements, one per feature.
- The viewport size and touch detection (`innerWidth`, `innerHeight`, `ontouchstart`, `maxTouchPoints`) are parameters.
- `localStorage` is a string map field, with no quota and no failures.
- The document's body is assumed to start without the `dark-theme`, `mobile-device` and `touch-device` classes, so `Theme.Loaded`, the `ThemeController` constructor and the `Resize.Page` constructor begin light and untagged. The light half of `Theme.ReloadRestoresTheme` rests on that assumption.
- Text.IntToString — widths and heights are unbounded `int`s here; the browser reports 32-bit `long`s, and `${n}` matches this rendering only below 10^21 (above that a JavaScript number prints in exponent form, and above 2^53 it is not even held exactly).
- `showNotification` messages are left out: the theme notices, the orientation-change notice (script.js:210-228) and the welcome notices and tips (script.js:497-526). They are presentation and timers. The summary line they show is modelled as `GetDeviceInfo`.
- `adjustAnimationsForSize` (script.js:230-245) and the body of `initMobileOptimizations` / `initTouchOptimizations` (script.js:144-192) set style strings and attach listeners. The model only counts how often the optimisations run.
- The `.info-card` scale animation, the gutter's CSS, scroll and viewport observers, listener wiring, timers and `setTimeout` chains are scheduling and styling. There is no logic in them to state.
- Random effects (`getRandomGradient`, grid colour picks, `createRandomAnimation`, the scroll animation delay) are nondeterministic.
- `createParticles` is floating-point geometry. The click counter of `initInteractiveExamples` is reset by a timer. The keyboard handler, the console banner and the injected stylesheet are I/O.
