/**
 * How a click travels through an open popup. Every popup is a full-screen backdrop whose
 * `onClick` is `onClose`, holding a dialog whose `onClick` calls `stopPropagation()`; inside the
 * dialog sit a close button (`onClick` is `onClose`), plain elements, and in the project popup an
 * image whose `onClick` toggles the zoom. A click runs the handlers from the clicked element up
 * to the backdrop, and a `stopPropagation()` ends the walk after its own handler.
 */
module Overlay {

  /** What an element's `onClick` does. */
  datatype Handler = CallsOnClose | TogglesZoom | StopsPropagation | NoHandler

  /** The effects a click has on the component state. */
  datatype Action = Close | ToggleZoom

  /** Where the user clicks; `depth` counts the plain wrappers between the element and the dialog. */
  datatype ClickTarget =
    | Backdrop
    | CloseButton(depth: nat)
    | DialogContent(depth: nat)
    | ZoomImage(depth: nat)

  function Wrappers(depth: nat): (path: seq<Handler>)
    ensures |path| == depth
    ensures forall i :: 0 <= i < depth ==> path[i] == NoHandler
  {
    if depth == 0 then [] else [NoHandler] + Wrappers(depth - 1)
  }

  /** The handlers met on the way from the clicked element up to the backdrop. */
  function Path(t: ClickTarget): seq<Handler> {
    match t
    case Backdrop => [CallsOnClose]
    case CloseButton(d) => [CallsOnClose] + Wrappers(d) + [StopsPropagation, CallsOnClose]
    case DialogContent(d) => Wrappers(d) + [StopsPropagation, CallsOnClose]
    case ZoomImage(d) => [TogglesZoom] + Wrappers(d) + [StopsPropagation, CallsOnClose]
  }

  /** Runs the handlers in bubbling order, stopping after a `stopPropagation()`. */
  function Dispatch(path: seq<Handler>): seq<Action> {
    if path == [] then []
    else match path[0]
      case CallsOnClose => [Close] + Dispatch(path[1..])
      case TogglesZoom => [ToggleZoom] + Dispatch(path[1..])
      case StopsPropagation => []
      case NoHandler => Dispatch(path[1..])
  }

  /** Plain wrappers pass the click on unchanged. */
  lemma {:induction false} DispatchThroughWrappers(d: nat, rest: seq<Handler>)
    ensures Dispatch(Wrappers(d) + rest) == Dispatch(rest)
  {
    if d > 0 {
      assert (Wrappers(d) + rest)[1..] == Wrappers(d - 1) + rest;
      DispatchThroughWrappers(d - 1, rest);
    } else {
      assert Wrappers(d) + rest == rest;
    }
  }

  /**
   * The backdrop and the close button each call `onClose` exactly once; a click anywhere else
   * in the dialog closes nothing, and a click on the project image only toggles the zoom.
   */
  lemma ClickRouting(t: ClickTarget)
    ensures Dispatch(Path(t)) == match t
      case Backdrop => [Close]
      case CloseButton(_) => [Close]
      case DialogContent(_) => []
      case ZoomImage(_) => [ToggleZoom]
  {
    var tail := [StopsPropagation, CallsOnClose];
    match t
    case Backdrop =>
    case CloseButton(d) =>
      assert Path(t)[1..] == Wrappers(d) + tail;
      DispatchThroughWrappers(d, tail);
    case DialogContent(d) =>
      DispatchThroughWrappers(d, tail);
    case ZoomImage(d) =>
      assert Path(t)[1..] == Wrappers(d) + tail;
      DispatchThroughWrappers(d, tail);
  }

  /** A click closes the popup exactly when it lands on the backdrop or the close button. */
  predicate ClosesPopup(t: ClickTarget) {
    Close in Dispatch(Path(t))
  }

  lemma ClosesPopupIff(t: ClickTarget)
    ensures ClosesPopup(t) <==> (t.Backdrop? || t.CloseButton?)
  {
    ClickRouting(t);
  }
}
