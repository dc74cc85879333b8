/** The `MediaRecorder` created for one recording, together with the `chunks` array that
    only its own `dataavailable` handler appends to. */
module Session {
  import opened Media
  import opened Chunks

  class MediaRecorder {
    /** `streamToRecord`, which the `onstop` handler also closes over. */
    const stream: Stream
    const mimeType: string
    /** `state === "recording"`. */
    var recording: bool
    /** The slice interval passed to `start`, in milliseconds; 0 before `start`. */
    var timeslice: int
    /** The handler's `chunks` array. */
    var chunks: seq<Blob>

    ghost predicate Valid()
      reads this
    {
      AllNonEmpty(chunks)
    }

    constructor (stream: Stream, mimeType: string)
      ensures Valid()
      ensures this.stream == stream && this.mimeType == mimeType
      ensures !recording && timeslice == 0 && chunks == []
    {
      this.stream := stream;
      this.mimeType := mimeType;
      recording := false;
      timeslice := 0;
      chunks := [];
    }

    method Start(timeslice: int)
      modifies this`recording, this`timeslice
      ensures recording && this.timeslice == timeslice
    {
      recording := true;
      this.timeslice := timeslice;
    }

    /** `stop()`: ends the recording; the final slice and the stop event follow as events. */
    method Stop()
      modifies this`recording
      ensures !recording
    {
      recording := false;
    }

    /** The `ondataavailable` handler. */
    method OnDataAvailable(data: Blob)
      requires Valid()
      modifies this`chunks
      ensures Valid()
      ensures chunks == Collect(old(chunks), [data])
      ensures data.Size() > 0 ==> chunks == old(chunks) + [data]
      ensures data.Size() == 0 ==> chunks == old(chunks)
    {
      if data.Size() > 0 {
        chunks := chunks + [data];
      }
      assert [data][..0] == [];
    }
  }
}
