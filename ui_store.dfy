/**
 * The UI store: the timeline zoom level, clamped to [0.5, 5] in steps of
 * 0.5, and the file-name modal with its pending submit callback.
 */
module UIStore {
  import opened Common

  const MaxZoom: real := 5.0
  const MinZoom: real := 0.5
  const ZoomStep: real := 0.5

  /** The callback `showFileNameModal` stores; only its identity matters here. */
  datatype SubmitHandler = SubmitHandler(id: nat)

  /** `Math.max(MIN_ZOOM, Math.min(MAX_ZOOM, level))`. */
  function ClampZoom(level: real): (z: real)
    ensures MinZoom <= z <= MaxZoom
    ensures MinZoom <= level <= MaxZoom ==> z == level
    ensures level < MinZoom ==> z == MinZoom
    ensures level > MaxZoom ==> z == MaxZoom
  {
    var capped := if MaxZoom <= level then MaxZoom else level;
    if MinZoom >= capped then MinZoom else capped
  }

  /** `Math.min(MAX_ZOOM, zoomLevel + ZOOM_STEP)`: only the upper bound is applied. */
  function ZoomedIn(zoom: real): (z: real)
    ensures z <= MaxZoom
    ensures zoom + ZoomStep <= MaxZoom ==> z == zoom + ZoomStep
    ensures zoom + ZoomStep > MaxZoom ==> z == MaxZoom
  {
    if MaxZoom <= zoom + ZoomStep then MaxZoom else zoom + ZoomStep
  }

  /** `Math.max(MIN_ZOOM, zoomLevel - ZOOM_STEP)`: only the lower bound is applied. */
  function ZoomedOut(zoom: real): (z: real)
    ensures z >= MinZoom
    ensures zoom - ZoomStep >= MinZoom ==> z == zoom - ZoomStep
    ensures zoom - ZoomStep < MinZoom ==> z == MinZoom
  {
    if MinZoom >= zoom - ZoomStep then MinZoom else zoom - ZoomStep
  }

  /** Clamping is idempotent. */
  lemma ClampZoomIdempotent(level: real)
    ensures ClampZoom(ClampZoom(level)) == ClampZoom(level)
  {
  }

  /** From a level in range, zooming in or out stays in range. */
  lemma ZoomKeepsRange(zoom: real)
    requires MinZoom <= zoom <= MaxZoom
    ensures MinZoom <= ZoomedIn(zoom) <= MaxZoom
    ensures MinZoom <= ZoomedOut(zoom) <= MaxZoom
  {
  }

  /** Zooming out undoes zooming in unless zooming in hit the maximum, and vice versa at the minimum. */
  lemma ZoomInOutInverse(zoom: real)
    requires MinZoom <= zoom <= MaxZoom
    ensures zoom <= MaxZoom - ZoomStep ==> ZoomedOut(ZoomedIn(zoom)) == zoom
    ensures zoom >= MinZoom + ZoomStep ==> ZoomedIn(ZoomedOut(zoom)) == zoom
  {
  }

  class UIState {
    var isFileNameModalOpen: bool
    var onFileNameSubmit: Option<SubmitHandler>
    var zoomLevel: real

    /** The zoom level stays in range and a callback is pending exactly while the modal is open. */
    predicate Valid()
      reads this
    {
      && MinZoom <= zoomLevel <= MaxZoom
      && (onFileNameSubmit.Some? <==> isFileNameModalOpen)
    }

    /** The initial state: modal closed, no callback, zoom 1. */
    constructor ()
      ensures Valid()
      ensures !isFileNameModalOpen && onFileNameSubmit == None && zoomLevel == 1.0
    {
      isFileNameModalOpen := false;
      onFileNameSubmit := None;
      zoomLevel := 1.0;
    }

    method ShowFileNameModal(onSubmit: SubmitHandler)
      modifies this
      ensures isFileNameModalOpen && onFileNameSubmit == Some(onSubmit)
      ensures zoomLevel == old(zoomLevel)
      ensures old(Valid()) ==> Valid()
    {
      isFileNameModalOpen := true;
      onFileNameSubmit := Some(onSubmit);
    }

    method CloseFileNameModal()
      modifies this
      ensures !isFileNameModalOpen && onFileNameSubmit == None
      ensures zoomLevel == old(zoomLevel)
      ensures old(Valid()) ==> Valid()
    {
      isFileNameModalOpen := false;
      onFileNameSubmit := None;
    }

    method SetZoomLevel(level: real)
      modifies this
      ensures zoomLevel == ClampZoom(level)
      ensures isFileNameModalOpen == old(isFileNameModalOpen) && onFileNameSubmit == old(onFileNameSubmit)
      ensures old(Valid()) ==> Valid()
    {
      zoomLevel := if MaxZoom <= level then MaxZoom else level;
      zoomLevel := if MinZoom >= zoomLevel then MinZoom else zoomLevel;
    }

    method ZoomIn()
      modifies this
      ensures zoomLevel == ZoomedIn(old(zoomLevel))
      ensures isFileNameModalOpen == old(isFileNameModalOpen) && onFileNameSubmit == old(onFileNameSubmit)
      ensures old(Valid()) ==> Valid()
    {
      zoomLevel := if MaxZoom <= zoomLevel + ZoomStep then MaxZoom else zoomLevel + ZoomStep;
    }

    method ZoomOut()
      modifies this
      ensures zoomLevel == ZoomedOut(old(zoomLevel))
      ensures isFileNameModalOpen == old(isFileNameModalOpen) && onFileNameSubmit == old(onFileNameSubmit)
      ensures old(Valid()) ==> Valid()
    {
      zoomLevel := if MinZoom >= zoomLevel - ZoomStep then MinZoom else zoomLevel - ZoomStep;
    }
  }
}
