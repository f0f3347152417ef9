/**
The main screen's handlers driven by an arbitrary finite sequence of events,
one after another, as the UI event loop delivers them, and the invariants that
hold over every such sequence.
 */
module EventTrace {
  import opened ImageTransform

  /** The user events the main screen reacts to. */
  datatype Event =
    | DoubleTap
    | DragChange(translation: Size)
    | DragEnd(translation: Size)
    | OnAppear

  /** The scale is one of the two values the handlers ever assign. */
  predicate ScaleIsFitOrZoomed(scale: real) {
    scale == FitScale || scale == ZoomedScale
  }

  /** The other of the two scales. */
  function Toggled(scale: real): real {
    if scale == FitScale then ZoomedScale else FitScale
  }

  /** Dispatches one event to its handler. */
  function Step(s: ViewState, e: Event): (r: ViewState)
    ensures s.isAnimating ==> r.isAnimating
    ensures r.isAnimating ==> s.isAnimating || e == OnAppear
    ensures ScaleIsFitOrZoomed(s.imageScale) ==> ScaleIsFitOrZoomed(r.imageScale)
  {
    match e
    case DoubleTap => ImageDoubleTap(s)
    case DragChange(t) => DragChanged(s, t)
    case DragEnd(t) => DragEnded(s, t)
    case OnAppear => Appear(s)
  }

  /**
  The state after handling `es` in order. The entry flag ends up set exactly
  when it was set already or the screen appeared somewhere in `es`: no event
  ever clears it.
   */
  function Run(s: ViewState, es: seq<Event>): (r: ViewState)
    ensures r.isAnimating <==> s.isAnimating || OnAppear in es
    decreases |es|
  {
    if |es| == 0 then s
    else
      assert es == [es[0]] + es[1..];
      Run(Step(s, es[0]), es[1..])
  }

  /** Handling `es` and then `e` is handling `es + [e]`. */
  lemma {:induction false} RunSnoc(s: ViewState, es: seq<Event>, e: Event)
    ensures Run(s, es + [e]) == Step(Run(s, es), e)
    decreases |es|
  {
    if |es| == 0 {
      assert es + [e] == [e];
    } else {
      assert (es + [e])[1..] == es[1..] + [e];
      RunSnoc(Step(s, es[0]), es[1..], e);
    }
  }

  /** The number of double taps in `es`. */
  function CountDoubleTaps(es: seq<Event>): nat
    decreases |es|
  {
    if |es| == 0 then 0
    else (if es[0] == DoubleTap then 1 else 0) + CountDoubleTaps(es[1..])
  }

  /**
  From the fitted or the zoomed scale, every double tap swaps the scale and no other
  event changes it: a drag end at the fitted scale re-assigns the fitted scale,
  and a drag end while zoomed is a no-op.
   */
  lemma {:induction false} ScaleFollowsDoubleTapParity(s: ViewState, es: seq<Event>)
    requires ScaleIsFitOrZoomed(s.imageScale)
    ensures Run(s, es).imageScale ==
      (if CountDoubleTaps(es) % 2 == 0 then s.imageScale else Toggled(s.imageScale))
    decreases |es|
  {
    if |es| != 0 {
      var s' := Step(s, es[0]);
      assert s'.imageScale == (if es[0] == DoubleTap then Toggled(s.imageScale) else s.imageScale);
      ScaleFollowsDoubleTapParity(s', es[1..]);
    }
  }

  /**
  From the screen's initial state the scale is zoomed in exactly after an odd
  number of double taps, and otherwise fitted; so it always lies in [1, 5].
   */
  lemma ScaleWithinBounds(es: seq<Event>)
    ensures Run(Initial, es).imageScale == (if CountDoubleTaps(es) % 2 == 1 then ZoomedScale else FitScale)
    ensures FitScale <= Run(Initial, es).imageScale <= ZoomedScale
  {
    ScaleFollowsDoubleTapParity(Initial, es);
  }

  /**
  The offset after a sequence of events is the offset it started with, zero
  (after a reset), or the translation of one of the drags in the sequence.
   */
  lemma {:induction false} OffsetComesFromDrag(s: ViewState, es: seq<Event>)
    ensures var o := Run(s, es).imageOffset;
      o == s.imageOffset || o == Zero || DragChange(o) in es
    decreases |es|
  {
    if |es| != 0 {
      assert es == [es[0]] + es[1..];
      OffsetComesFromDrag(Step(s, es[0]), es[1..]);
    }
  }

  /** From the initial state, any pan on screen was put there by a drag in the sequence. */
  lemma InitialOffsetComesFromDrag(es: seq<Event>)
    ensures Run(Initial, es).imageOffset != Zero ==> DragChange(Run(Initial, es).imageOffset) in es
  {
    OffsetComesFromDrag(Initial, es);
  }

  /** A drag has changed the offset and not yet ended. */
  function DragPending(es: seq<Event>): bool
    decreases |es|
  {
    if |es| == 0 then false
    else
      match es[|es| - 1]
      case DragChange(_) => true
      case DragEnd(_) => false
      case _ => DragPending(es[..|es| - 1])
  }

  /**
  Outside a drag gesture, no pan is left over at the fitted scale: only a
  drag change leaves the image panned at scale 1, and the drag's end snaps it
  back.
   */
  lemma {:induction false} NoPanAtFitOutsideDrag(s: ViewState, es: seq<Event>)
    requires NoPanAtFit(s)
    requires !DragPending(es)
    ensures NoPanAtFit(Run(s, es))
    decreases |es|
  {
    if |es| != 0 {
      var front, e := es[..|es| - 1], es[|es| - 1];
      assert es == front + [e];
      RunSnoc(s, front, e);
      if !e.DragEnd? {
        NoPanAtFitOutsideDrag(s, front);
      }
    }
  }

  /** A drag at the fitted scale does leave the image panned until the drag ends. */
  lemma PanAtFitDuringDrag(t: Size)
    requires t != Zero
    ensures Run(Initial, [DragChange(t)]).imageScale == FitScale
    ensures Run(Initial, [DragChange(t)]).imageOffset != Zero
    ensures DragPending([DragChange(t)])
  {
    assert [DragChange(t)][1..] == [];
  }
}
