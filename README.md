# River Sanctuary front-end: verified model of its interaction logic

The site is a marketing front-end for a riverside housing development. Most of it is static markup. A few of its
components hold real interaction logic, and this project models that logic in Dafny and proves what it promises:

- **Panorama viewer** (`Panorama`): dragging scrubs a background position by 0.2 points per pixel. The position wraps
  with JavaScript's truncating `%` so that the rotation looks endless.
- **Floor-plan viewer** (`FloorPlan`): a state machine with zoom buttons (steps of 0.5, clamped to [1, 4]), mouse and
  one-finger panning that only starts when zoomed in, two-finger pinch zoom, and a reset when the image changes.
- **Zone donut chart** (`ZoneChart`): each zone with a positive ratio gets `ratio / total * 360` degrees from a running
  start angle. A slice of 360 degrees or more is drawn as a full circle.
- **Booking form** (`Booking`): submission is accepted exactly when name, phone and date are non-empty. The interest
  radio follows the unit model passed in the router state.
- **Chat context** (`Chat`): one open/closed flag with open, close and toggle. Outside a provider the default context
  reads closed and does nothing.
- `JsMath` holds `Math.min`, `Math.max`, their clamp composition, and the truncating remainder on reals.

The stateful components are Dafny classes whose fields are the component's state hooks and refs. Each handler is a
method whose `ensures` ties the new state to a pure step function of the old state. The multi-step properties are
lemmas about those step functions, and about runs of them over event sequences. The slice computation is a method
with a loop and a running angle, proved equal to a recursive layout function. The properties are proved about that
function.

JavaScript numbers are modelled as exact `real`s. Pointer distances, which the component computes with
`Math.hypot`, are inputs.

The wrapped panorama position lies in the closed range [0, 100], not the half-open [0, 100) that a wrap-around
suggests. A candidate of exactly 100 skips both branches (pages/ProductDetail.tsx:244-245), and a negative multiple
of 100 becomes `100 + (-0)`. `Panorama.WrapIsHundredIff` and `Panorama.HundredIsReachable` prove this.

## Model

| member | source | states |
|---|---|---|
| JsMath.Min | pages/ProductDetail.tsx:319 | `Math.min`: the result is at most both arguments and equals one of them |
| JsMath.Max | pages/ProductDetail.tsx:322 | `Math.max`: the result is at least both arguments and equals one of them |
| JsMath.Clamp | pages/ProductDetail.tsx:389 | `Math.min(Math.max(x, lo), hi)` lies in [lo, hi]; it is `x` when `x` is in range, `lo` below and `hi` above |
| JsMath.Trunc | pages/ProductDetail.tsx:244-245 | Truncation toward zero: below `x` by less than 1 for `x >= 0`, above by less than 1 for `x < 0`, exact on whole numbers |
| JsMath.TruncRem | pages/ProductDetail.tsx:244-245 | JavaScript `%`: the remainder has the dividend's sign, is smaller than the divisor in magnitude, and differs from the dividend by a whole multiple of the divisor |
| JsMath.TruncRemZeroIff | pages/ProductDetail.tsx:245 | The remainder is zero exactly when the divisor divides the dividend |
| Panorama.WrapPosition | pages/ProductDetail.tsx:243-245 | The wrapped position lies in the closed range [0, 100], differs from the candidate by a whole multiple of 100, and equals the candidate when it is already in range |
| Panorama.WrapIsHundredIff | pages/ProductDetail.tsx:244-245 | The wrap yields exactly 100 iff the candidate is 100 or a negative multiple of 100 |
| Panorama.HundredIsReachable | pages/ProductDetail.tsx:238-247 | From the initial state, a drag of -250 or +750 pixels leaves the position at exactly 100 |
| Panorama.RunStaysInRange | pages/ProductDetail.tsx:230-252 | After any sequence of presses, moves and releases, the position stays in [0, 100] |
| Panorama.InitialInRange | pages/ProductDetail.tsx:225-228 | The initial position 50 is in range and no drag is active |
| Panorama.IdleMoveChangesNothing | pages/ProductDetail.tsx:237 | A move while not dragging leaves the whole state unchanged |
| Panorama.MoveForgetsEarlierMoves | pages/ProductDetail.tsx:238-241 | Two moves in a row have the effect of the second alone |
| Panorama.MoveSeesOnlyDelta | pages/ProductDetail.tsx:238-241 | Shifting both the press point and the pointer by the same amount gives the same position: only the total delta counts |
| Panorama.DragFollowsLastPointer | pages/ProductDetail.tsx:230-247 | A press then moves wraps (position at the press) - 0.2 × (last pointer - press point), and the drag stays active |
| Panorama.EndedDragIgnoresMoves | pages/ProductDetail.tsx:250-252 | After `handleEnd`, any number of moves change nothing |
| Panorama.PanoramaViewer.constructor | pages/ProductDetail.tsx:225-228 | The fields start as the initial state: position 50, not dragging |
| Panorama.PanoramaViewer.HandleStart | pages/ProductDetail.tsx:230-234 | Dragging starts with the pointer and the current position as the baseline; the position is unchanged |
| Panorama.PanoramaViewer.HandleMove | pages/ProductDetail.tsx:236-248 | The new state is the move step of the old one; during a drag the new position lies in [0, 100] |
| Panorama.PanoramaViewer.HandleEnd | pages/ProductDetail.tsx:250-252 | Only the dragging flag changes, to false |
| FloorPlan.StepKeepsScaleInRange | pages/ProductDetail.tsx:302-397 | Every handler maps a scale in [1, 4] to a scale in [1, 4] |
| FloorPlan.RunKeepsScaleInRange | pages/ProductDetail.tsx:298-397 | The scale stays in [1, 4] through any admissible sequence of image changes, button presses, mouse and touch events |
| FloorPlan.InitialIsValid | pages/ProductDetail.tsx:298-316 | The viewer starts at scale 1, at the origin, not dragging |
| FloorPlan.ImageChangeResets | pages/ProductDetail.tsx:302-305 | The image-change effect restores scale 1 and the origin and leaves the gesture record alone |
| FloorPlan.ZoomInKeepsTranslate | pages/ProductDetail.tsx:319 | Zoom-in never changes the translate or the gesture record |
| FloorPlan.ZoomOutToOneResets | pages/ProductDetail.tsx:320-326 | Zoom-out lands on 1 iff the scale was at most 1.5; landing on 1 resets the translate, otherwise it is kept |
| FloorPlan.RepeatedZoomIn | pages/ProductDetail.tsx:319 | `n` zoom-in presses give scale min(scale + 0.5n, 4) and change nothing else |
| FloorPlan.RepeatedZoomOut | pages/ProductDetail.tsx:320-326 | `n` zoom-out presses give scale max(scale - 0.5n, 1); the translate is reset iff 1 is reached |
| FloorPlan.PanStartsOnlyWhenZoomed | pages/ProductDetail.tsx:333-363 | A mouse press or a one-finger touch starts a pan iff the scale exceeds 1, and otherwise changes nothing; neither moves the plan, whatever the recorded finger distance |
| FloorPlan.OneFingerMovesLikeMouse | pages/ProductDetail.tsx:376-382 | A one-finger touch move is the mouse move: it pans only while dragging and never changes the scale |
| FloorPlan.PanFollowsPointer | pages/ProductDetail.tsx:333-350 | After a press on a zoomed plan and moves, the translate is the translate at the press plus the pointer's total displacement; the scale is unchanged |
| FloorPlan.ReleaseStopsPanning | pages/ProductDetail.tsx:352-354 | Mouse up and touch end clear dragging, and moves after a release change nothing |
| FloorPlan.PinchStartRecordsBaseline | pages/ProductDetail.tsx:364-372 | A two-finger start cancels the pan and records the current scale and the finger distance, without moving the plan |
| FloorPlan.PinchScalesProportionally | pages/ProductDetail.tsx:383-392 | A pinch scales to clamp(start scale × d1/d0, 1, 4) and resets the translate when that is 1; spreading never zooms out and closing never zooms in |
| FloorPlan.FloorPlanViewer.constructor | pages/ProductDetail.tsx:298-316 | The fields start as the initial state, which keeps the scale invariant |
| FloorPlan.FloorPlanViewer.ResetForImage | pages/ProductDetail.tsx:302-305 | The new state is the image-change step and the scale invariant holds |
| FloorPlan.FloorPlanViewer.ZoomIn | pages/ProductDetail.tsx:319 | The new state is the zoom-in step and the scale invariant holds |
| FloorPlan.FloorPlanViewer.ZoomOut | pages/ProductDetail.tsx:320-326 | The new state is the zoom-out step, translate reset at 1, and the scale invariant holds |
| FloorPlan.FloorPlanViewer.UpdateTranslate | pages/ProductDetail.tsx:328-330 | Only the translate changes, to the given point |
| FloorPlan.FloorPlanViewer.OnMouseDown | pages/ProductDetail.tsx:333-340 | The new state is the mouse-down step and the scale invariant holds |
| FloorPlan.FloorPlanViewer.OnMouseMove | pages/ProductDetail.tsx:342-350 | The new state is the mouse-move step and the scale invariant holds |
| FloorPlan.FloorPlanViewer.OnMouseUp | pages/ProductDetail.tsx:352-354 | Only the dragging flag changes, to false, and the scale invariant holds |
| FloorPlan.FloorPlanViewer.OnTouchStart | pages/ProductDetail.tsx:357-373 | The new state is the touch-start step and the scale invariant holds |
| FloorPlan.FloorPlanViewer.OnTouchMove | pages/ProductDetail.tsx:375-393 | The new state is the touch-move step (pan or clamped pinch) and the scale invariant holds |
| FloorPlan.FloorPlanViewer.OnTouchEnd | pages/ProductDetail.tsx:395-397 | Only the dragging flag changes, to false, and the scale invariant holds |
| ZoneChart.ComputeSlices | pages/ProductDetail.tsx:465-517 | The loop with its running angle produces exactly the slice layout |
| ZoneChart.KeptIndices | pages/ProductDetail.tsx:481 | The zones that get a slice: all positions with positive ratio, and only those, in increasing order |
| ZoneChart.SlicesFollowZones | pages/ProductDetail.tsx:480-516 | One slice per positive zone, in input order; each keeps its index, its zone and colour `index % 6` of the palette, and its angle follows its ratio |
| ZoneChart.NoPositiveZoneNoSlices | pages/ProductDetail.tsx:481 | With no zone of positive ratio, in particular with no zones, there are no slices |
| ZoneChart.StartAngleIsSweptSoFar | pages/ProductDetail.tsx:506-514 | Each sector starts at the sum of the angles of the sectors before it |
| ZoneChart.TotalIsSum | pages/ProductDetail.tsx:460 | The left-to-right reduce of the ratios equals their sum |
| ZoneChart.AnglesSumTo360 | pages/ProductDetail.tsx:460-514 | With non-negative ratios and a positive total, the slice angles add up to 360 |
| ZoneChart.SolePositiveZoneIsFullCircle | pages/ProductDetail.tsx:483-494 | A sole positive zone yields exactly one slice: the full circle from 0 over 360 degrees with that zone's index and colour |
| ZoneChart.LargeArcIffMajority | pages/ProductDetail.tsx:483-501 | A sector's large-arc flag is 1 iff its angle exceeds 180, which holds iff its zone has more than half of the total |
| Booking.Contains | pages/Booking.tsx:17 | `includes`: true iff the marker occurs at some position of the string |
| Booking.InterestFor | pages/Booking.tsx:17-21 | The derived interest is one of the two radio values, and "townhouse" iff the model contains "type-t" |
| Booking.InterestAfter | pages/Booking.tsx:14-23 | A non-empty model sets the derived interest; an absent or empty one leaves it unchanged; a radio value stays a radio value |
| Booking.Submit | pages/Booking.tsx:25-32 | Accepted iff name, phone and date are all non-empty; acceptance shows the confirmation and goes to "/", rejection shows the missing-information alert |
| Booking.BlankFieldsPass | pages/Booking.tsx:26 | Only emptiness is checked: fields of blanks pass, and one empty field rejects |
| Booking.ModelIdsSelectInterest | pages/Booking.tsx:17-21 | Of the model identifiers, "type-t1" selects "townhouse" and "type-a", "type-b", "type-c" select "second-house" |
| Booking.DialogAsWrittenNeverSelectsTownhouse | pages/ProductDetail.tsx:723 | The display name sent by the unit dialog never selects "townhouse", even for the townhouse model |
| Booking.DialogSelectsInterestOfModel | pages/ProductDetail.tsx:1048 | Sending the identifier, as the header button does, selects "townhouse" exactly for the townhouse model |
| Booking.BookingForm.constructor | pages/Booking.tsx:9-12 | The three fields start empty and the interest starts as "second-house" |
| Booking.BookingForm.SetName | pages/Booking.tsx:73-74 | Only the name changes, to the typed value |
| Booking.BookingForm.SetPhone | pages/Booking.tsx:83-84 | Only the phone changes, to the typed value |
| Booking.BookingForm.SetDate | pages/Booking.tsx:130-131 | Only the date changes, to the picked value |
| Booking.BookingForm.SelectInterest | pages/Booking.tsx:99-115 | The chosen radio's value becomes the interest, which stays a radio value; nothing else changes |
| Booking.BookingForm.ApplyLocationState | pages/Booking.tsx:14-23 | The interest becomes the derived interest of the incoming model, stays a radio value, and nothing else changes |
| Booking.BookingForm.HandleSubmit | pages/Booking.tsx:25-32 | The outcome is the submission decision on the three text fields; no field changes |
| Chat.OpenAndCloseAreIdempotent | context/ChatContext.tsx:22-23 | Opening always yields open and closing always yields closed; each is idempotent |
| Chat.ToggleTwiceIsIdentity | context/ChatContext.tsx:24 | Toggling negates the flag, so toggling twice restores it |
| Chat.ApplyAllConcat | context/ChatContext.tsx:22-24 | Running two operation sequences one after the other is running their concatenation |
| Chat.TogglesFollowParity | context/ChatContext.tsx:24 | `n` toggles keep the flag for even `n` and negate it for odd `n` |
| Chat.LastSetterDecides | context/ChatContext.tsx:22-24 | After any history, the last open or close followed by `n` toggles decides the flag |
| Chat.DefaultContextIsInert | context/ChatContext.tsx:10-15 | Without a provider the context reads closed and no operation changes it |
| Chat.ProviderContextTracksFlag | context/ChatContext.tsx:26-29 | Inside a provider the context carries exactly the provider's flag after the operations |
| Chat.ChatProvider.constructor | context/ChatContext.tsx:20 | The flag starts closed, so the provided context reads closed |
| Chat.ChatProvider.OpenChat | context/ChatContext.tsx:22 | The flag becomes open; the provided context moves as `openChat` dispatched on it |
| Chat.ChatProvider.CloseChat | context/ChatContext.tsx:23 | The flag becomes closed; the provided context moves as `closeChat` dispatched on it |
| Chat.ChatProvider.ToggleChat | context/ChatContext.tsx:24 | The flag becomes the negation of its old value; the provided context moves as `toggleChat` dispatched on it |

## Left out

- The three.js viewer (`ThreeViewer`) is foreign-library rendering: scene setup, the WebGL renderer, the animation loop and the resize listener.
- Slice arc end points (`Math.cos`/`Math.sin`) and the SVG path text are floating-point drawing. Only the angles, the full-circle case and the large-arc flag are modelled.
- `Math.hypot` for the touch-point distance: the distance is an input.
- `parseFloat`, `toFixed` and `Math.round` display conversions: float parsing and formatting.
- Floating point: numbers are exact reals. Rounding, NaN and negative zero are not modelled; `100 + (-0)` is 100 either way.
- FloorPlan.FloorPlanViewer.OnTouchMove: requires a positive pinch baseline for a two-finger move. A move with a zero baseline divides by zero in JavaScript, and that NaN/Infinity case is not modelled.
- FloorPlan.PinchScalesProportionally: requires a positive start distance, for the same reason.
- FloorPlan.RunKeepsScaleInRange: covers event sequences in which every two-finger move has a positive baseline (`Admissible`), for the same reason.
- ZoneChart: a zero total with a positive ratio is modelled as the full circle, as `Infinity >= 360` makes it. Other NaN cases (non-numeric or NaN ratios) are not modelled.
- The booking page's consent checkbox is uncontrolled and never read, so it has no state in the model. The theme toggle and the back button are not part of this model.
- Booking: the alerts and `navigate('/')` are modelled as the returned outcome, not as effects.
- React rendering, effect scheduling and state batching: each handler is one atomic update. The panorama `onMouseLeave` and the floor plan `onMouseLeave` are the same handlers as release.
- The chatbot component (an external streaming client), the map page, the static pages, the bottom navigation, the router and the type declarations are not part of this model.

## Findings

| source | as written | input that shows it | evidently intended | confidence | as-written member | corrected member |
|---|---|---|---|---|---|---|
| pages/ProductDetail.tsx:723 | The unit dialog's booking button sends the model's display name (`currentData.name`). The booking page derives the interest with `includes('type-t')`, and no display name contains "type-t". | The townhouse unit dialog sends "Town T1 (듀플렉스)". The booking form then pre-selects "second-house". | Send the identifier (e.g. "type-t1"), as the header's booking button does at line 1048, so that a townhouse booking pre-selects "townhouse". | medium, not executed | Booking.DialogAsWrittenNeverSelectsTownhouse | Booking.DialogSelectsInterestOfModel |
