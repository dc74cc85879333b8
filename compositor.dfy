/** The "both" mode compositor: the off-screen canvas, the overlay geometry of each frame,
    and the redraw loops started on the canvas. Pixel contents are not modelled; a frame is
    the list of draw calls it issues. */
module Compositor {
  import opened Media

  /** The size `combineStreams` gives the canvas before drawing. */
  const CanvasWidth: int := 1920
  const CanvasHeight: int := 1080

  /** HTML's initial canvas size, before `combineStreams` first runs. */
  const DefaultCanvasWidth: int := 300
  const DefaultCanvasHeight: int := 150

  /** The overlay position (`cameraPosition`), in canvas pixels. */
  datatype Position = Position(x: real, y: real)

  const InitialCameraPosition: Position := Position(20.0, 20.0)

  /** A destination rectangle of `drawImage`. JavaScript numbers are modelled as exact reals. */
  datatype Rect = Rect(x: real, y: real, width: real, height: real)

  datatype Layer = MainVideo | CameraVideo

  datatype DrawCall = DrawImage(layer: Layer, dest: Rect)

  /** Where the camera is drawn: a quarter of the canvas width, at 16:9, at the given position. */
  function OverlayRect(canvasWidth: int, pos: Position): (r: Rect)
    ensures r.x == pos.x && r.y == pos.y
    ensures 4.0 * r.width == canvasWidth as real
    ensures 16.0 * r.height == 9.0 * r.width
  {
    var cameraWidth := canvasWidth as real / 4.0;
    Rect(pos.x, pos.y, cameraWidth, cameraWidth * 9.0 / 16.0)
  }

  /** The draw calls of one `drawFrame`: the display video over the whole canvas, then the camera. */
  function Frame(canvasWidth: int, canvasHeight: int, pos: Position): seq<DrawCall>
  {
    [DrawImage(MainVideo, Rect(0.0, 0.0, canvasWidth as real, canvasHeight as real)),
     DrawImage(CameraVideo, OverlayRect(canvasWidth, pos))]
  }

  predicate Inside(r: Rect, canvasWidth: int, canvasHeight: int)
  {
    0.0 <= r.x && 0.0 <= r.y &&
    r.x + r.width <= canvasWidth as real && r.y + r.height <= canvasHeight as real
  }

  /** On the fixed 1920x1080 canvas the main video fills the canvas and the overlay is 480x270. */
  lemma FixedCanvasFrame(pos: Position)
    ensures Frame(CanvasWidth, CanvasHeight, pos) ==
            [DrawImage(MainVideo, Rect(0.0, 0.0, 1920.0, 1080.0)),
             DrawImage(CameraVideo, Rect(pos.x, pos.y, 480.0, 270.0))]
  {
  }

  /** The position is not clamped: the overlay stays on the canvas exactly when the
      position lies in [0, 1440] x [0, 810]. */
  lemma OverlayInsideIff(pos: Position)
    ensures Inside(OverlayRect(CanvasWidth, pos), CanvasWidth, CanvasHeight) <==>
            0.0 <= pos.x <= 1440.0 && 0.0 <= pos.y <= 810.0
  {
  }

  /** A started `drawFrame` loop: the two video elements it reads and the overlay position
      captured by the closure when the loop was created. */
  datatype DrawLoop = DrawLoop(main: Stream, overlay: Stream, position: Position)

  /** The `<canvas>` element. Its redraw loops are only ever added: nothing cancels them. */
  class Canvas {
    var width: int
    var height: int
    /** Whether `getContext("2d")` yields a context. */
    const hasContext: bool
    var loops: seq<DrawLoop>

    constructor (hasContext: bool)
      ensures width == DefaultCanvasWidth && height == DefaultCanvasHeight
      ensures this.hasContext == hasContext && loops == []
    {
      width, height := DefaultCanvasWidth, DefaultCanvasHeight;
      this.hasContext := hasContext;
      loops := [];
    }

    /** `drawFrame()`: draws the first frame and keeps rescheduling itself. */
    method StartDrawLoop(main: Stream, overlay: Stream, pos: Position)
      modifies this`loops
      ensures loops == old(loops) + [DrawLoop(main, overlay, pos)]
    {
      loops := loops + [DrawLoop(main, overlay, pos)];
    }

    /** The frame every loop draws on the canvas as it is now. */
    ghost function CurrentFrame(loop: DrawLoop): seq<DrawCall>
      reads this
    {
      Frame(width, height, loop.position)
    }

    /** `canvas.captureStream(30)`: a new stream carrying the canvas's one video track. */
    method CaptureStream() returns (s: Stream)
      ensures fresh(s) && s.Kinds() == [Video] && AllLive(s) && FreshTracks(s)
    {
      s := new Stream([Video]);
    }
  }
}
