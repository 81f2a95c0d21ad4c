/**
 * The camera component as an object: the React state becomes fields, each
 * command applies its updater from CamControl to them, and the handle's
 * getters and `snapshot` read them without changing anything.
 */
module MageReactCam {
  import opened Wrappers
  import opened CamControl

  /** The mounted `<video>` element: its native frame size and its attached stream. */
  datatype VideoElement = VideoElement(videoWidth: nat, videoHeight: nat, srcObject: Option<nat>)

  /** A stream returned by getUserMedia: an identity and the capabilities of each video track. */
  datatype MediaStream = MediaStream(id: nat, videoTracks: seq<Capabilities>)

  /** The temporary canvas: its size and whether a frame was drawn onto it. */
  datatype Surface = Surface(width: nat, height: nat, drawn: bool)

  /** The data URL produced by encoding a surface with the requested type; the encoding itself is not modelled. */
  datatype DataUrl = DataUrl(requestedType: string, surface: Surface)

  /** Size of a freshly created canvas element. */
  const DefaultCanvasWidth: nat := 300
  const DefaultCanvasHeight: nat := 150

  class Camera {
    var zoomLevel: int
    var maxZoom: real
    var currentFacingMode: FacingMode
    /** The element behind the internal ref; `None` while nothing is mounted. */
    var video: Option<VideoElement>
    const width: Option<int>
    const height: Option<int>

    /** The zoom level is always a positive whole number. */
    ghost predicate Valid()
      reads this
    {
      zoomLevel >= 1
    }

    /** The control state held by the component. */
    function State(): ControlState
      reads this
    {
      ControlState(zoomLevel, maxZoom, currentFacingMode)
    }

    /** First render: zoom 1, maximum zoom 1, facing mode from the prop, no element mounted yet. */
    constructor (facingMode: FacingMode := Environment, width: Option<int> := None, height: Option<int> := None)
      ensures Valid()
      ensures State() == Initial(facingMode)
      ensures video == None && this.width == width && this.height == height
    {
      zoomLevel := 1;
      maxZoom := 1.0;
      currentFacingMode := facingMode;
      video := None;
      this.width := width;
      this.height := height;
    }

    /** React attaches (or detaches) the rendered element to the internal ref. */
    method SetVideoElement(v: Option<VideoElement>)
      modifies this
      ensures video == v
      ensures State() == old(State())
    {
      video := v;
    }

    method ZoomIn()
      requires Valid()
      modifies this
      ensures Valid()
      ensures State() == Apply(old(State()), CamControl.ZoomIn)
      ensures old(zoomLevel) as real <= maxZoom ==> zoomLevel as real <= maxZoom
      ensures video == old(video)
    {
      zoomLevel := ZoomInStep(zoomLevel, maxZoom);
    }

    method ZoomOut()
      requires Valid()
      modifies this
      ensures Valid()
      ensures State() == Apply(old(State()), CamControl.ZoomOut)
      ensures video == old(video)
    {
      zoomLevel := ZoomOutStep(zoomLevel);
    }

    method SwitchFacingMode()
      requires Valid()
      modifies this
      ensures Valid()
      ensures State() == Apply(old(State()), CamControl.SwitchFacingMode)
      ensures video == old(video)
    {
      currentFacingMode := Toggle(currentFacingMode);
    }

    method GetMaxZoomLevel() returns (r: real)
      ensures r == maxZoom
    {
      r := maxZoom;
    }

    method GetCurrentZoomLevel() returns (r: int)
      ensures r == zoomLevel
    {
      r := zoomLevel;
    }

    /** The request the effect sends to getUserMedia for the current state and props. */
    function RequestedConstraints(): (c: MediaStreamConstraints)
      reads this
      ensures c.video.facingMode == currentFacingMode
      ensures c.video.advanced == [AdvancedZoom(zoomLevel)]
      ensures c.video.width.ideal == OrDefaultSize(width) && c.video.height.ideal == OrDefaultSize(height)
    {
      BuildConstraints(currentFacingMode, width, height, zoomLevel)
    }

    /**
     * The success handler of getUserMedia. Reading the first video track of a
     * stream without one throws, which sends the error to the rejection
     * handler instead; `threw` reports that case, in which nothing changes.
     */
    method OnStreamAcquired(stream: MediaStream) returns (threw: bool)
      requires Valid()
      modifies this
      ensures Valid()
      ensures threw <==> |stream.videoTracks| == 0
      ensures threw ==> State() == old(State()) && video == old(video)
      ensures !threw ==> State() == Apply(old(State()), CapabilityUpdate(stream.videoTracks[0]))
      ensures !threw ==> video == match old(video)
                                  case None => None
                                  case Some(v) => Some(v.(srcObject := Some(stream.id)))
    {
      if |stream.videoTracks| == 0 {
        return true;
      }
      var capabilities := stream.videoTracks[0];
      maxZoom := UpdateMaxZoom(maxZoom, capabilities);
      if video.Some? {
        video := Some(video.value.(srcObject := Some(stream.id)));
      }
      threw := false;
    }

    /**
     * Captures the current frame. `hasContext` is whether the canvas gave a
     * 2D context; without one nothing is drawn but the encoding still happens.
     */
    method Snapshot(hasContext: bool) returns (r: Option<DataUrl>)
      ensures r.None? <==> video.None?
      ensures r.Some? ==> r.value.requestedType == "image/jpeg"
      ensures r.Some? ==> r.value.surface.width == video.value.videoWidth
      ensures r.Some? ==> r.value.surface.height == video.value.videoHeight
      ensures r.Some? ==> r.value.surface.drawn == hasContext
    {
      if video.None? {
        return None;
      }
      var v := video.value;
      var canvas := Surface(DefaultCanvasWidth, DefaultCanvasHeight, false);
      canvas := canvas.(width := v.videoWidth);
      canvas := canvas.(height := v.videoHeight);
      if hasContext {
        canvas := canvas.(drawn := true);
      }
      r := Some(DataUrl("image/jpeg", canvas));
    }
  }

  /**
   * A caller's view: on a fresh component zooming in does nothing; once a
   * stream reports a zoom capability with maximum 2, zooming in reaches 2
   * and stops there.
   */
  method ZoomInGatedByCapability(facingMode: FacingMode) returns (before: int, after: int)
    ensures before == 1 && after == 2
  {
    var cam := new Camera(facingMode);
    cam.ZoomIn();
    before := cam.GetCurrentZoomLevel();
    var threw := cam.OnStreamAcquired(MediaStream(0, [Capabilities(Some(ZoomRange(2.0)))]));
    cam.ZoomIn();
    cam.ZoomIn();
    after := cam.GetCurrentZoomLevel();
  }
}
