# Pinch: main-screen image transform

This project models the transform state machine of the Pinch app's main screen
(`MainAppView`). The screen shows one image. It keeps three pieces of state:

- `isAnimating`: whether the entry fade has started.
- `imageScale`: the zoom factor. 1 means fitted.
- `imageOffset`: the pan translation.

Four events change that state. The double tap and the drag end share a reset
helper, which sets the scale to 1 and the pan to zero.

- A double tap zooms to scale 5 from the fitted scale, and otherwise resets.
- A drag change moves the image to the drag's translation.
- A drag end resets the image when the scale is at most 1.
- The screen appearing starts the entry fade.

`ImageTransform` (`image_transform.dfy`) holds the state datatype and one pure
function per handler. `EventTrace` (`event_trace.dfy`) feeds an arbitrary finite
sequence of events through those handlers. It proves the invariants that hold
over every such sequence:

- the scale is 5 exactly after an odd number of double taps, so it stays in [1, 5];
- the entry flag is set exactly when the screen has appeared, and nothing clears it;
- any pan comes from a drag;
- outside a drag gesture, no pan is left over at scale 1.

`CGFloat` and `CGSize` are used only for constant assignment, copying and
`==`/`<=` comparison, so they are modelled as `real` with no loss. The event
loop that delivers gestures one at a time is modelled as a sequence of events
fed through the handlers in order.

Zero pan at scale 1 is not an invariant of every state. A drag change at scale 1
(Pinch/Screens/MainAppView.swift:50-54) pans the fitted image until the drag
ends (:55-59). `EventTrace.PanAtFitDuringDrag` exhibits such a state, and
`EventTrace.NoPanAtFitOutsideDrag` proves the invariant whenever no drag is in
progress.

## Model

| member | source | states |
|---|---|---|
| ImageTransform.ResetImageState | Pinch/Screens/MainAppView.swift:25-30 | the result is fitted (scale 1) with zero offset, whatever the prior state, and the entry flag is kept |
| ImageTransform.ImageDoubleTap | Pinch/Screens/MainAppView.swift:15-23 | at scale 1 the result is zoomed to 5 with offset and entry flag kept; at any other scale the result is fitted with zero offset |
| ImageTransform.DragChanged | Pinch/Screens/MainAppView.swift:50-54 | the offset becomes exactly the drag translation, at any scale; scale and entry flag are unchanged |
| ImageTransform.DragEnded | Pinch/Screens/MainAppView.swift:55-59 | at scale at most 1 the result is reset; above 1 the state is completely unchanged, so the pan is retained; either way no pan is left over at scale 1 |
| ImageTransform.Appear | Pinch/Screens/MainAppView.swift:64-66 | the entry flag becomes true and scale and offset are unchanged |
| ImageTransform.ResetIdempotent | Pinch/Screens/MainAppView.swift:25-30 | resetting twice equals resetting once, and a reset leaves a state alone exactly when it is already fitted with zero offset |
| ImageTransform.DoubleTapAwayFromFitIsReset | Pinch/Screens/MainAppView.swift:20-22 | away from scale 1 a double tap is exactly a reset |
| ImageTransform.DoubleTapTwiceFromFit | Pinch/Screens/MainAppView.swift:15-30 | from scale 1, one double tap zooms to 5 and a second one resets, clearing any pan |
| ImageTransform.DoubleTapRoundTrip | Pinch/Screens/MainAppView.swift:15-30 | two double taps from the reset state return to that same state |
| ImageTransform.DoubleTapInvolution | Pinch/Screens/MainAppView.swift:15-30 | on unpanned states at scale 1 or 5, a double tap swaps the scale and two double taps are the identity |
| ImageTransform.DragChangedLatestWins | Pinch/Screens/MainAppView.swift:50-54 | two drag changes in a row equal the second one alone |
| ImageTransform.DragEndedIdempotent | Pinch/Screens/MainAppView.swift:55-59 | a second drag end, whatever its translation, leaves the state a first drag end produced unchanged |
| ImageTransform.DragAtFitSnapsBack | Pinch/Screens/MainAppView.swift:50-59 | a complete drag at scale 1 ends in the reset state, whatever the translations |
| ImageTransform.DragWhileZoomedKeepsPan | Pinch/Screens/MainAppView.swift:50-59 | a complete drag while zoomed in leaves the image panned to the last changed translation |
| EventTrace.Step | Pinch/Screens/MainAppView.swift:47-66 | one event never clears the entry flag, sets it only when it is the appear event, and keeps the scale in {1, 5} |
| EventTrace.Run | Pinch/Screens/MainAppView.swift:11-66 | after any event sequence the entry flag is set exactly when it was set before or the sequence contains an appear event |
| EventTrace.ScaleFollowsDoubleTapParity | Pinch/Screens/MainAppView.swift:12-59 | from scale 1 or 5, the scale after any sequence is the start scale after an even number of double taps and the other one after an odd number |
| EventTrace.ScaleWithinBounds | Pinch/Screens/MainAppView.swift:12-30 | from the initial state the scale is 5 exactly after an odd number of double taps and 1 otherwise, so it always lies in [1, 5] |
| EventTrace.OffsetComesFromDrag | Pinch/Screens/MainAppView.swift:13-59 | after any sequence the offset is the starting offset, zero, or the translation of some drag change in the sequence |
| EventTrace.InitialOffsetComesFromDrag | Pinch/Screens/MainAppView.swift:13-59 | from the initial state every nonzero offset is the translation of a drag change in the sequence |
| EventTrace.NoPanAtFitOutsideDrag | Pinch/Screens/MainAppView.swift:25-59 | from a state with no pan at scale 1, any sequence not ending inside a drag gesture again has no pan at scale 1 |
| EventTrace.PanAtFitDuringDrag | Pinch/Screens/MainAppView.swift:50-54 | a nonzero drag change from the initial state leaves the image at scale 1 with a nonzero offset while the drag is pending |

## Left out

- SwiftUI layout and rendering are not modelled: the image modifiers, the navigation view, the info-panel overlay and the previews (Pinch/Screens/MainAppView.swift:33-46, :61-63 and :68-84). They are presentation with no state of their own.
- The `withAnimation` timing curves, `.spring()` and `.linear(duration: 1)`, are not modelled. They change how a transition is drawn over time, not the state it ends in.
- Gesture recognition is not modelled. How the framework detects a double tap or a drag is outside the screen's code, so events are abstract inputs.
- Drag values are reduced to their translation. A drag end's value is carried but not consulted, matching the code.
- `InfoPanelView` is not part of this model. Pinch/Views/ControlImageView.swift is only an icon wrapper with no state.
- Pinch-to-zoom, the zoom-in, zoom-out and reset buttons, and the side drawer are not modelled. The screen's code has none of them.
