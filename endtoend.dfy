/** A whole "both" mode session driven through the controller's contracts: devices found,
    recording started with every browser call succeeding, the encoder's slices delivered,
    the recording stopped and downloaded. */
module EndToEnd {
  import opened Media
  import opened Devices
  import opened Chunks
  import opened Compositor
  import opened Session
  import opened Home

  /** Mount the page with a canvas, find one camera and one microphone, and start a
      "both" mode recording with every prompt granted. */
  method StartBoth() returns (home: Controller, rec: MediaRecorder, ghost camMic: Stream)
    ensures fresh(home) && fresh(rec) && fresh(camMic) && FreshTracks(rec.stream)
    ensures home.Valid() && home.isRecording && home.mediaRecorderRef == rec
    ensures rec.Valid() && rec.recording && rec.chunks == []
    ensures rec.stream.Kinds() == [Video] && AllLive(rec.stream)
    ensures camMic.Kinds() == [Video, Audio] && AllLive(camMic) && camMic.Tracks() !! rec.stream.Tracks()
  {
    var canvas := new Canvas(true);
    home := new Controller(true, true, canvas);
    var devices := [DeviceInfo("cam", VideoInput, "Camera"), DeviceInfo("mic", AudioInput, "Microphone")];
    home.GetDevices(Some(devices));
    assert home.availableCameras == [devices[0]] && home.availableMicrophones == [devices[1]];
    var r, stream, mediaStream := home.StartRecording(true, true, false, Started);
    rec := r;
    camMic := mediaStream;
  }

  /** The encoder delivers `slices` to the recorder's `dataavailable` handler, in order. */
  method Deliver(rec: MediaRecorder, slices: seq<Blob>)
    requires rec.Valid()
    modifies rec`chunks
    ensures rec.Valid() && rec.chunks == old(rec.chunks) + NonEmpty(slices)
  {
    var i := 0;
    while i < |slices|
      invariant 0 <= i <= |slices|
      invariant rec.Valid() && rec.chunks == Collect(old(rec.chunks), slices[..i])
    {
      assert slices[..i + 1][..i] == slices[..i];
      rec.OnDataAvailable(slices[i]);
      i := i + 1;
    }
    assert slices[..i] == slices;
    CollectKeepsNonEmpty(old(rec.chunks), slices);
  }

  /** The user stops the recording, the recorder's stop event fires, and the user downloads.
      The file is made of the recorder's chunks; only the recorded stream's tracks are stopped. */
  method StopAndDownload(home: Controller, rec: MediaRecorder, ghost camMic: Stream)
    returns (artifact: Option<Artifact>)
    requires home.Valid() && rec.Valid() && home.mediaRecorderRef == rec
    requires home.isRecording && rec.recording
    requires AllLive(camMic) && camMic.Tracks() !! rec.stream.Tracks()
    modifies home`isRecording, home`recordedChunks, rec, rec.stream.Tracks()
    ensures artifact.None? <==> rec.chunks == []
    ensures artifact.Some? ==> artifact.value == Artifact(Concat(rec.chunks), DownloadType)
    ensures rec.chunks == old(rec.chunks) && AllStopped(rec.stream) && AllLive(camMic)
  {
    home.StopRecording();
    home.OnStop(rec);
    artifact := home.DownloadRecording();
  }

  /** The downloaded file holds the bytes of all delivered slices in order (there is none when
      every slice was empty). The recorded stream is the canvas's video-only stream and ends up
      stopped; the camera-and-microphone stream fetched for compositing stays live. */
  method RecordBothAndDownload(slices: seq<Blob>)
    returns (artifact: Option<Artifact>, recorded: Stream, ghost camMic: Stream)
    ensures artifact.None? <==> NonEmpty(slices) == []
    ensures artifact.Some? ==>
      && artifact.value.content == Concat(slices)
      && |artifact.value.content| == TotalSize(slices)
      && artifact.value.contentType == DownloadType
    ensures recorded.Kinds() == [Video] && AllStopped(recorded)
    ensures camMic.Kinds() == [Video, Audio] && AllLive(camMic)
  {
    var home, rec;
    home, rec, camMic := StartBoth();
    recorded := rec.stream;
    Deliver(rec, slices);
    artifact := StopAndDownload(home, rec, camMic);
    assert rec.chunks == NonEmpty(slices);
    NonEmptyKeepsBytes(slices);
    ConcatSize(slices);
  }
}
