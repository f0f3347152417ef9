/**
The transform state of the Pinch app's main screen and the four handlers that
change it. The screen keeps three fields — whether the entry fade has started,
the image's zoom factor and the image's pan offset — and every user event is a
pure function from one such state to the next.

CGFloat and CGSize are used by the screen only for constant assignment,
copying and `==`/`<=` comparison, so they are modelled as `real` without loss.
 */
module ImageTransform {

  /** A 2-D translation in points (CGSize). */
  datatype Size = Size(width: real, height: real)

  /** The zero translation (`CGSize.zero`). */
  const Zero: Size := Size(0.0, 0.0)

  /** The scale at which the image fits the screen. */
  const FitScale: real := 1.0

  /** The scale a double tap zooms to. */
  const ZoomedScale: real := 5.0

  /** The screen's transform state. */
  datatype ViewState = ViewState(isAnimating: bool, imageScale: real, imageOffset: Size)

  /** The state the screen starts in: not yet faded in, fitted, not panned. */
  const Initial: ViewState := ViewState(false, FitScale, Zero)

  /** The image is fitted and not panned. */
  predicate IsReset(s: ViewState) {
    s.imageScale == FitScale && s.imageOffset == Zero
  }

  /** No pan is left over at the fitted scale. */
  predicate NoPanAtFit(s: ViewState) {
    s.imageScale == FitScale ==> s.imageOffset == Zero
  }

  /** Puts the image back at the fitted scale with no pan; the entry flag is kept. */
  function ResetImageState(s: ViewState): (r: ViewState)
    ensures IsReset(r)
    ensures r.isAnimating == s.isAnimating
  {
    s.(imageScale := FitScale, imageOffset := Zero)
  }

  /** Double tap: zooms in from the fitted scale, otherwise resets. */
  function ImageDoubleTap(s: ViewState): (r: ViewState)
    ensures r.isAnimating == s.isAnimating
    ensures s.imageScale == FitScale ==> r.imageScale == ZoomedScale && r.imageOffset == s.imageOffset
    ensures s.imageScale != FitScale ==> IsReset(r)
  {
    if s.imageScale == FitScale then
      s.(imageScale := ZoomedScale)
    else
      ResetImageState(s)
  }

  /** A drag in progress moves the image to the drag's translation, at any scale. */
  function DragChanged(s: ViewState, translation: Size): (r: ViewState)
    ensures r.imageOffset == translation
    ensures r.imageScale == s.imageScale && r.isAnimating == s.isAnimating
  {
    s.(imageOffset := translation)
  }

  /**
  The end of a drag snaps the image back when it is not zoomed in, and keeps
  the pan otherwise. The gesture's final translation is not consulted.
   */
  function DragEnded(s: ViewState, translation: Size): (r: ViewState)
    ensures s.imageScale <= FitScale ==> IsReset(r) && r.isAnimating == s.isAnimating
    ensures s.imageScale > FitScale ==> r == s
    ensures NoPanAtFit(r)
  {
    if s.imageScale <= FitScale then ResetImageState(s) else s
  }

  /** The screen appearing starts the entry fade; nothing else changes. */
  function Appear(s: ViewState): (r: ViewState)
    ensures r.isAnimating
    ensures r.imageScale == s.imageScale && r.imageOffset == s.imageOffset
  {
    s.(isAnimating := true)
  }

  /** Resetting twice is resetting once, and a state is left alone exactly when it is already reset. */
  lemma ResetIdempotent(s: ViewState)
    ensures ResetImageState(ResetImageState(s)) == ResetImageState(s)
    ensures ResetImageState(s) == s <==> IsReset(s)
  {
  }

  /** Away from the fitted scale a double tap is exactly a reset. */
  lemma DoubleTapAwayFromFitIsReset(s: ViewState)
    requires s.imageScale != FitScale
    ensures ImageDoubleTap(s) == ResetImageState(s)
  {
  }

  /** Two double taps from the fitted scale zoom in and back out, clearing any pan. */
  lemma DoubleTapTwiceFromFit(s: ViewState)
    requires s.imageScale == FitScale
    ensures ImageDoubleTap(s).imageScale == ZoomedScale
    ensures ImageDoubleTap(ImageDoubleTap(s)) == ResetImageState(s)
  {
  }

  /** Two double taps from the reset state return to it. */
  lemma DoubleTapRoundTrip(s: ViewState)
    requires IsReset(s)
    ensures ImageDoubleTap(ImageDoubleTap(s)) == s
  {
  }

  /**
  On unpanned states at the fitted or the zoomed scale, double tap is an
  involution: it swaps the two scales.
   */
  lemma DoubleTapInvolution(s: ViewState)
    requires s.imageOffset == Zero
    requires s.imageScale == FitScale || s.imageScale == ZoomedScale
    ensures ImageDoubleTap(s).imageScale != s.imageScale
    ensures ImageDoubleTap(ImageDoubleTap(s)) == s
  {
  }

  /** Only the latest drag translation matters. */
  lemma DragChangedLatestWins(s: ViewState, t1: Size, t2: Size)
    ensures DragChanged(DragChanged(s, t1), t2) == DragChanged(s, t2)
  {
  }

  /** A second drag end, whatever its translation, changes nothing. */
  lemma DragEndedIdempotent(s: ViewState, t: Size, u: Size)
    ensures DragEnded(DragEnded(s, t), u) == DragEnded(s, t)
  {
  }

  /** A whole drag at the fitted scale leaves no trace on the transform. */
  lemma DragAtFitSnapsBack(s: ViewState, t: Size, u: Size)
    requires s.imageScale == FitScale
    ensures DragEnded(DragChanged(s, t), u) == ResetImageState(s)
  {
  }

  /** A whole drag while zoomed in leaves the image panned to the drag's last translation. */
  lemma DragWhileZoomedKeepsPan(s: ViewState, t: Size, u: Size)
    requires s.imageScale > FitScale
    ensures DragEnded(DragChanged(s, t), u) == DragChanged(s, t)
  {
  }
}
