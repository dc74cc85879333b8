/** The recording controller of the `Home` page: its state, its refs and the handlers that
    acquire previews, start and stop a recording, collect its chunks and download them.
    Every browser call is an argument saying how it turned out (granted or refused, whether a
    shared screen carries audio, whether the recorder accepts its options); the streams the
    browser would hand back are allocated here as new objects with new live tracks. */
module Home {
  import opened Media
  import opened Devices
  import opened Chunks
  import opened Compositor
  import opened Session

  datatype RecordingMode = Screen | Camera | Both

  /** How `new MediaRecorder(stream, options)` and then `start(1000)` turn out. */
  datatype RecorderOutcome = Unsupported | StartFails | Started

  const RecorderMimeType: string := "video/webm;codecs=vp9,opus"
  const DownloadType: string := "video/webm"
  /** The slice interval, in milliseconds, passed to `start`. */
  const SliceInterval: int := 1000

  /** The downloaded file's contents and content type. */
  datatype Artifact = Artifact(content: seq<byte>, contentType: string)

  /** A snapshot of all the controller's mutable state, for saying what an operation leaves alone. */
  datatype State = State(
    isRecording: bool,
    recordedChunks: seq<Blob>,
    selectedCamera: string,
    selectedMicrophone: string,
    availableCameras: seq<DeviceInfo>,
    availableMicrophones: seq<DeviceInfo>,
    cameraPosition: Position,
    recordingMode: RecordingMode,
    mediaRecorderRef: MediaRecorder?,
    cameraStreamRef: Stream?,
    displayStreamRef: Stream?,
    cameraPreviewSource: Stream?,
    videoPreviewSource: Stream?)

  /** The tracks of a granted `getDisplayMedia({video, audio: true})`: audio only when shared. */
  function DisplayKinds(withAudio: bool): seq<TrackKind>
  {
    [Video] + (if withAudio then [Audio] else [])
  }

  class Controller {
    // React state
    var isRecording: bool
    var recordedChunks: seq<Blob>
    var selectedCamera: string
    var selectedMicrophone: string
    var availableCameras: seq<DeviceInfo>
    var availableMicrophones: seq<DeviceInfo>
    var cameraPosition: Position
    var recordingMode: RecordingMode

    // refs
    var mediaRecorderRef: MediaRecorder?
    var cameraStreamRef: Stream?
    var displayStreamRef: Stream?

    /** The `srcObject` of the camera preview and of the screen preview `<video>` elements. */
    var cameraPreviewSource: Stream?
    var videoPreviewSource: Stream?

    /** Whether `cameraPreviewRef.current` and `videoPreviewRef.current` are mounted. */
    const hasCameraPreview: bool
    const hasVideoPreview: bool
    /** `canvasRef.current`. */
    const canvas: Canvas?

    ghost function Snapshot(): State
      reads this
    {
      State(isRecording, recordedChunks, selectedCamera, selectedMicrophone,
            availableCameras, availableMicrophones, cameraPosition, recordingMode,
            mediaRecorderRef, cameraStreamRef, displayStreamRef,
            cameraPreviewSource, videoPreviewSource)
    }

    /** A recording in progress always has its recorder, and only non-empty chunks are kept. */
    ghost predicate Valid()
      reads this
    {
      (isRecording ==> mediaRecorderRef != null) && AllNonEmpty(recordedChunks)
    }

    function CanvasSet(): set<object>
    {
      if canvas == null then {} else {canvas}
    }

    function RecorderSet(): set<object>
      reads this
    {
      if mediaRecorderRef == null then {} else {mediaRecorderRef}
    }

    /** The initial render. */
    constructor (hasCameraPreview: bool, hasVideoPreview: bool, canvas: Canvas?)
      ensures Valid()
      ensures Snapshot() == State(false, [], "", "", [], [], InitialCameraPosition, Both,
                                  null, null, null, null, null)
      ensures this.hasCameraPreview == hasCameraPreview && this.hasVideoPreview == hasVideoPreview
      ensures this.canvas == canvas
    {
      isRecording := false;
      recordedChunks := [];
      selectedCamera, selectedMicrophone := "", "";
      availableCameras, availableMicrophones := [], [];
      cameraPosition := InitialCameraPosition;
      recordingMode := Both;
      mediaRecorderRef, cameraStreamRef, displayStreamRef := null, null, null;
      cameraPreviewSource, videoPreviewSource := null, null;
      this.hasCameraPreview := hasCameraPreview;
      this.hasVideoPreview := hasVideoPreview;
      this.canvas := canvas;
    }

    /** `getDevices`: `enumeration` is `None` when the permission prompt or the enumeration fails.
        `ChosenIsDefault` turns the selections into "the first device of each kind, if any". */
    method GetDevices(enumeration: Option<seq<DeviceInfo>>)
      requires Valid()
      modifies this`availableCameras, this`availableMicrophones, this`selectedCamera, this`selectedMicrophone
      ensures Valid()
      ensures enumeration.None? ==> Snapshot() == old(Snapshot())
      ensures enumeration.Some? ==>
        && availableCameras == OfKind(enumeration.value, VideoInput)
        && availableMicrophones == OfKind(enumeration.value, AudioInput)
        && selectedCamera == Chosen(availableCameras, old(selectedCamera))
        && selectedMicrophone == Chosen(availableMicrophones, old(selectedMicrophone))
    {
      if enumeration.Some? {
        var devices := enumeration.value;
        var cameras := OfKind(devices, VideoInput);
        var microphones := OfKind(devices, AudioInput);
        availableCameras := cameras;
        availableMicrophones := microphones;
        selectedCamera := Chosen(cameras, selectedCamera);
        selectedMicrophone := Chosen(microphones, selectedMicrophone);
      }
    }

    /** `startCameraPreview`: `granted` says whether the video-only `getUserMedia` succeeds. */
    method StartCameraPreview(granted: bool)
      requires Valid()
      modifies this, TracksOf(cameraStreamRef)
      ensures Valid()
      ensures old(cameraStreamRef) != null ==> AllStopped(old(cameraStreamRef))
      ensures granted && hasCameraPreview ==>
        && cameraStreamRef != null && fresh(cameraStreamRef)
        && cameraStreamRef.Kinds() == [Video] && AllLive(cameraStreamRef)
        && FreshTracks(cameraStreamRef)
        && Snapshot() == old(Snapshot()).(cameraStreamRef := cameraStreamRef,
                                          cameraPreviewSource := cameraStreamRef)
      ensures !(granted && hasCameraPreview) ==> Snapshot() == old(Snapshot())
    {
      if cameraStreamRef != null {
        StopTracks(cameraStreamRef);
      }
      if !granted {
        return;
      }
      var stream := new Stream([Video]);
      if hasCameraPreview {
        cameraPreviewSource := stream;
        cameraStreamRef := stream;
      }
    }

    /** `startScreenPreview`: `granted` says whether `getDisplayMedia` succeeds, `withAudio`
        whether the shared surface comes with an audio track. */
    method StartScreenPreview(granted: bool, withAudio: bool)
      requires Valid()
      modifies this, TracksOf(displayStreamRef)
      ensures Valid()
      ensures old(displayStreamRef) != null ==> AllStopped(old(displayStreamRef))
      ensures granted && hasVideoPreview ==>
        && displayStreamRef != null && fresh(displayStreamRef)
        && displayStreamRef.Kinds() == DisplayKinds(withAudio) && AllLive(displayStreamRef)
        && FreshTracks(displayStreamRef)
        && Snapshot() == old(Snapshot()).(displayStreamRef := displayStreamRef,
                                          videoPreviewSource := displayStreamRef)
      ensures !(granted && hasVideoPreview) ==> Snapshot() == old(Snapshot())
    {
      if displayStreamRef != null {
        StopTracks(displayStreamRef);
      }
      if !granted {
        return;
      }
      var stream := new Stream(DisplayKinds(withAudio));
      if hasVideoPreview {
        videoPreviewSource := stream;
        displayStreamRef := stream;
      }
    }

    /** `combineStreams`: the stream "both" mode records. Without a canvas, or without a 2D
        context, it is the display stream itself; otherwise the canvas's own capture stream,
        fed by a redraw loop that is started here and never cancelled. */
    method CombineStreams(display: Stream, camera: Stream) returns (out: Stream)
      modifies CanvasSet()
      ensures canvas == null ==> out == display
      ensures canvas != null ==> canvas.width == CanvasWidth && canvas.height == CanvasHeight
      ensures canvas != null && !canvas.hasContext ==> out == display && canvas.loops == old(canvas.loops)
      ensures canvas != null && canvas.hasContext ==>
        && fresh(out) && out.Kinds() == [Video]
        && AllLive(out) && FreshTracks(out)
        && canvas.loops == old(canvas.loops) + [DrawLoop(display, camera, cameraPosition)]
      // every loop reads the canvas size when it draws, so each now draws the 1920x1080 frame
      ensures canvas != null ==> forall i :: 0 <= i < |canvas.loops| ==>
        canvas.CurrentFrame(canvas.loops[i]) ==
          [DrawImage(MainVideo, Rect(0.0, 0.0, 1920.0, 1080.0)),
           DrawImage(CameraVideo, Rect(canvas.loops[i].position.x, canvas.loops[i].position.y, 480.0, 270.0))]
    {
      if canvas == null {
        return display;
      }
      canvas.width := CanvasWidth;
      canvas.height := CanvasHeight;
      if !canvas.hasContext {
        out := display;
      } else {
        canvas.StartDrawLoop(display, camera, cameraPosition);
        out := canvas.CaptureStream();
      }
      forall i | 0 <= i < |canvas.loops|
        ensures canvas.CurrentFrame(canvas.loops[i]) ==
          [DrawImage(MainVideo, Rect(0.0, 0.0, 1920.0, 1080.0)),
           DrawImage(CameraVideo, Rect(canvas.loops[i].position.x, canvas.loops[i].position.y, 480.0, 270.0))]
      {
        FixedCanvasFrame(canvas.loops[i].position);
      }
    }

    ghost predicate SelectionMissing()
      reads this
    {
      selectedCamera == "" || selectedMicrophone == ""
    }

    /** The attempt gets as far as the display stream check. */
    ghost predicate WantsDisplay(camMicGranted: bool)
      reads this
    {
      !SelectionMissing() && (recordingMode == Screen || (recordingMode == Both && camMicGranted))
    }

    /** The attempt finds a stream to record. */
    ghost predicate FindsStream(camMicGranted: bool, displayGranted: bool)
      reads this
    {
      && !SelectionMissing()
      && (recordingMode == Camera ==> camMicGranted)
      && (recordingMode != Camera ==>
            WantsDisplay(camMicGranted) && (displayStreamRef != null || (displayGranted && hasVideoPreview)))
    }

    /** `if (!displayStreamRef.current) await startScreenPreview()`. */
    method AcquireDisplay(granted: bool, withAudio: bool)
      requires Valid()
      modifies this
      ensures Valid()
      ensures old(displayStreamRef) == null && granted && hasVideoPreview ==>
        && displayStreamRef != null && fresh(displayStreamRef)
        && displayStreamRef.Kinds() == DisplayKinds(withAudio) && AllLive(displayStreamRef)
        && FreshTracks(displayStreamRef)
        && Snapshot() == old(Snapshot()).(displayStreamRef := displayStreamRef,
                                          videoPreviewSource := displayStreamRef)
      ensures !(old(displayStreamRef) == null && granted && hasVideoPreview) ==> Snapshot() == old(Snapshot())
    {
      if displayStreamRef == null {
        StartScreenPreview(granted, withAudio);
      }
    }

    /** Lines choosing `streamToRecord` in `startRecording`; `null` where it returns early.
        `camMic` is the camera-and-microphone stream fetched in "both" mode. */
    method StreamToRecord(camMicGranted: bool, displayGranted: bool, displayAudio: bool)
      returns (stream: Stream?, ghost camMic: Stream?)
      requires Valid()
      modifies this, CanvasSet()
      ensures Valid()
      ensures Snapshot() == old(Snapshot()).(displayStreamRef := displayStreamRef,
                                             videoPreviewSource := videoPreviewSource)
      ensures old(WantsDisplay(camMicGranted) && displayStreamRef == null) && displayGranted && hasVideoPreview ==>
        && displayStreamRef != null && fresh(displayStreamRef)
        && displayStreamRef.Kinds() == DisplayKinds(displayAudio) && AllLive(displayStreamRef)
        && FreshTracks(displayStreamRef) && videoPreviewSource == displayStreamRef
      ensures !(old(WantsDisplay(camMicGranted) && displayStreamRef == null) && displayGranted && hasVideoPreview) ==>
        displayStreamRef == old(displayStreamRef) && videoPreviewSource == old(videoPreviewSource)
      ensures (stream != null) <==> old(FindsStream(camMicGranted, displayGranted))
      ensures stream != null && recordingMode != Camera ==> displayStreamRef != null
      ensures stream != null && recordingMode == Camera ==>
        fresh(stream) && stream.Kinds() == [Video, Audio] && AllLive(stream) && FreshTracks(stream)
      ensures stream != null && recordingMode == Screen ==> stream == displayStreamRef
      ensures stream != null && recordingMode == Both && (canvas == null || !canvas.hasContext) ==>
        stream == displayStreamRef
      ensures stream != null && recordingMode == Both && canvas != null && canvas.hasContext ==>
        fresh(stream) && stream.Kinds() == [Video] && AllLive(stream) && FreshTracks(stream)
      ensures (camMic != null) <==> old(!SelectionMissing() && recordingMode == Both) && camMicGranted
      ensures camMic != null ==>
        && fresh(camMic) && camMic.Kinds() == [Video, Audio] && AllLive(camMic)
        && camMic.Tracks() !! TracksOf(displayStreamRef)
        && (stream != null ==> camMic.Tracks() !! stream.Tracks())
      ensures canvas != null && !(stream != null && recordingMode == Both) ==> unchanged(canvas)
      ensures canvas != null && stream != null && recordingMode == Both ==>
        && camMic != null && displayStreamRef != null
        && canvas.width == CanvasWidth && canvas.height == CanvasHeight
        && canvas.loops == old(canvas.loops) +
             (if canvas.hasContext then [DrawLoop(displayStreamRef, camMic, cameraPosition)] else [])
    {
      stream, camMic := null, null;
      if selectedCamera == "" || selectedMicrophone == "" {
        return;
      }
      if recordingMode == Camera {
        if camMicGranted {
          stream := new Stream([Video, Audio]);
        }
      } else if recordingMode == Screen {
        AcquireDisplay(displayGranted, displayAudio);
        stream := displayStreamRef;
      } else if camMicGranted {
        var mediaStream := new Stream([Video, Audio]);
        camMic := mediaStream;
        AcquireDisplay(displayGranted, displayAudio);
        if displayStreamRef != null {
          stream := CombineStreams(displayStreamRef, mediaStream);
        }
      }
    }

    /** `new MediaRecorder(stream, options)`, the ref assignment and `start(1000)`. */
    method CreateRecorder(stream: Stream, outcome: RecorderOutcome) returns (rec: MediaRecorder?)
      requires Valid()
      modifies this`mediaRecorderRef, this`isRecording
      ensures Valid()
      ensures (rec != null) <==> outcome != Unsupported
      ensures rec == null ==> mediaRecorderRef == old(mediaRecorderRef) && isRecording == old(isRecording)
      ensures rec != null ==>
        && fresh(rec) && mediaRecorderRef == rec && rec.Valid()
        && rec.stream == stream && rec.mimeType == RecorderMimeType && rec.chunks == []
        && (rec.recording <==> outcome == Started)
        && isRecording == (old(isRecording) || outcome == Started)
        && (outcome == Started ==> rec.timeslice == SliceInterval)
    {
      if outcome == Unsupported {
        return null;
      }
      rec := new MediaRecorder(stream, RecorderMimeType);
      mediaRecorderRef := rec;
      if outcome == Started {
        rec.Start(SliceInterval);
        isRecording := true;
      }
    }

    /** `startRecording`. `camMicGranted` is the outcome of the camera-and-microphone
        `getUserMedia` (camera and "both" modes); `displayGranted` and `displayAudio` that of the
        screen preview started when no display stream is held; `outcome` that of the recorder.
        `rec` is the recorder created, if any, and `stream` the stream it was given; `camMic` is
        the camera-and-microphone stream of "both" mode, which nothing stops. */
    method StartRecording(camMicGranted: bool, displayGranted: bool, displayAudio: bool,
                          outcome: RecorderOutcome)
      returns (rec: MediaRecorder?, stream: Stream?, ghost camMic: Stream?)
      requires Valid()
      modifies this, CanvasSet()
      ensures Valid()
      ensures Snapshot() == old(Snapshot()).(displayStreamRef := displayStreamRef,
                                             videoPreviewSource := videoPreviewSource,
                                             mediaRecorderRef := mediaRecorderRef,
                                             isRecording := isRecording)
      // the display stream is acquired only when it is needed and missing
      ensures old(WantsDisplay(camMicGranted) && displayStreamRef == null) && displayGranted && hasVideoPreview ==>
        && displayStreamRef != null && fresh(displayStreamRef)
        && displayStreamRef.Kinds() == DisplayKinds(displayAudio) && AllLive(displayStreamRef)
        && FreshTracks(displayStreamRef) && videoPreviewSource == displayStreamRef
      ensures !(old(WantsDisplay(camMicGranted) && displayStreamRef == null) && displayGranted && hasVideoPreview) ==>
        displayStreamRef == old(displayStreamRef) && videoPreviewSource == old(videoPreviewSource)
      // the stream recorded in each mode
      ensures (stream != null) <==> old(FindsStream(camMicGranted, displayGranted))
      ensures stream != null && recordingMode == Camera ==>
        fresh(stream) && stream.Kinds() == [Video, Audio] && AllLive(stream) && FreshTracks(stream)
      ensures stream != null && recordingMode == Screen ==> stream == displayStreamRef
      ensures stream != null && recordingMode == Both && (canvas == null || !canvas.hasContext) ==>
        stream == displayStreamRef
      ensures stream != null && recordingMode == Both && canvas != null && canvas.hasContext ==>
        fresh(stream) && stream.Kinds() == [Video] && AllLive(stream) && FreshTracks(stream)
      // a recorder exists exactly when a stream was found and the recorder accepts its options
      ensures (rec != null) <==> stream != null && outcome != Unsupported
      ensures rec == null ==> mediaRecorderRef == old(mediaRecorderRef) && isRecording == old(isRecording)
      ensures rec != null ==>
        && fresh(rec) && mediaRecorderRef == rec && rec.Valid()
        && rec.stream == stream && rec.mimeType == RecorderMimeType && rec.chunks == []
        && (rec.recording <==> outcome == Started)
        && isRecording == (old(isRecording) || outcome == Started)
        && (outcome == Started ==> rec.timeslice == SliceInterval)
      // the camera-and-microphone stream of "both" mode
      ensures (camMic != null) <==> old(!SelectionMissing() && recordingMode == Both) && camMicGranted
      ensures camMic != null ==>
        && fresh(camMic) && camMic.Kinds() == [Video, Audio] && AllLive(camMic)
        && camMic.Tracks() !! TracksOf(displayStreamRef)
        && (stream != null ==> camMic.Tracks() !! stream.Tracks())
      // the canvas is set up exactly when "both" mode gets as far as compositing
      ensures canvas != null && !(stream != null && recordingMode == Both) ==> unchanged(canvas)
      ensures canvas != null && stream != null && recordingMode == Both ==>
        && camMic != null && displayStreamRef != null
        && canvas.width == CanvasWidth && canvas.height == CanvasHeight
        && canvas.loops == old(canvas.loops) +
             (if canvas.hasContext then [DrawLoop(displayStreamRef, camMic, cameraPosition)] else [])
    {
      rec := null;
      stream, camMic := StreamToRecord(camMicGranted, displayGranted, displayAudio);
      if stream != null {
        rec := CreateRecorder(stream, outcome);
      }
    }

    /** The recorder's `onstop` handler: publishes its chunks and stops the recorded stream. */
    method OnStop(rec: MediaRecorder)
      requires Valid() && rec.Valid()
      modifies this`recordedChunks, rec.stream.Tracks()
      ensures Valid()
      ensures recordedChunks == rec.chunks
      ensures AllStopped(rec.stream)
    {
      recordedChunks := rec.chunks;
      StopTracks(rec.stream);
    }

    /** `stopRecording`. */
    method StopRecording()
      requires Valid()
      modifies this`isRecording, RecorderSet()
      ensures Valid() && !isRecording
      ensures old(mediaRecorderRef != null && isRecording) ==> !mediaRecorderRef.recording
      ensures mediaRecorderRef != null ==>
        mediaRecorderRef.chunks == old(mediaRecorderRef.chunks) &&
        mediaRecorderRef.timeslice == old(mediaRecorderRef.timeslice)
      ensures !old(mediaRecorderRef != null && isRecording) ==>
        Snapshot() == old(Snapshot()) && (mediaRecorderRef != null ==> unchanged(mediaRecorderRef))
    {
      if mediaRecorderRef != null && isRecording {
        mediaRecorderRef.Stop();
        isRecording := false;
      }
    }

    /** `downloadRecording`: nothing to do without chunks; otherwise one `video/webm` file made
        of all the chunks in order, after which the chunks are cleared. */
    method DownloadRecording() returns (artifact: Option<Artifact>)
      requires Valid()
      modifies this`recordedChunks
      ensures Valid()
      ensures old(recordedChunks) == [] ==> artifact == None && recordedChunks == old(recordedChunks)
      ensures old(recordedChunks) != [] ==>
        && artifact == Some(Artifact(Concat(old(recordedChunks)), DownloadType))
        && |artifact.value.content| == TotalSize(old(recordedChunks))
        && recordedChunks == []
    {
      if |recordedChunks| == 0 {
        return None;
      }
      ConcatSize(recordedChunks);
      artifact := Some(Artifact(Concat(recordedChunks), DownloadType));
      recordedChunks := [];
    }

    /** The cleanup of the mode effect: stops both preview streams but keeps the refs. */
    method CleanupPreviews()
      modifies TracksOf(cameraStreamRef), TracksOf(displayStreamRef)
      ensures cameraStreamRef != null ==> AllStopped(cameraStreamRef)
      ensures displayStreamRef != null ==> AllStopped(displayStreamRef)
    {
      if cameraStreamRef != null {
        StopTracks(cameraStreamRef);
      }
      if displayStreamRef != null {
        StopTracks(displayStreamRef);
      }
    }

    /** `setSelectedCamera`, called by the device selector. */
    method SetSelectedCamera(id: string)
      modifies this`selectedCamera
      ensures selectedCamera == id
    {
      selectedCamera := id;
    }

    /** `setSelectedMicrophone`, called by the device selector. */
    method SetSelectedMicrophone(id: string)
      modifies this`selectedMicrophone
      ensures selectedMicrophone == id
    {
      selectedMicrophone := id;
    }

    /** `setCameraPosition`, called by the preview when the overlay is dragged. Redraw loops
        already started keep the position they captured. */
    method SetCameraPosition(pos: Position)
      modifies this`cameraPosition
      ensures cameraPosition == pos
    {
      cameraPosition := pos;
    }

    /** `setRecordingMode`: a different mode re-runs the mode effect, whose cleanup runs first. */
    method SetRecordingMode(mode: RecordingMode)
      modifies this`recordingMode, TracksOf(cameraStreamRef), TracksOf(displayStreamRef)
      ensures recordingMode == mode
      ensures mode != old(recordingMode) ==>
        (cameraStreamRef != null ==> AllStopped(cameraStreamRef)) &&
        (displayStreamRef != null ==> AllStopped(displayStreamRef))
      ensures mode == old(recordingMode) ==>
        unchanged(TracksOf(cameraStreamRef)) && unchanged(TracksOf(displayStreamRef))
    {
      if mode != recordingMode {
        CleanupPreviews();
        recordingMode := mode;
      }
    }
  }
}
