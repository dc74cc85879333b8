# Screen recorder session controller, modelled in Dafny

This project models the recording controller of the `Home` page of next-screen-recorder
(`app/page.tsx`). The page finds the user's cameras and microphones, shows a camera preview and
a screen preview, and records in one of three modes:

- **camera**: a new camera-and-microphone stream;
- **screen**: the display stream the screen preview holds;
- **both**: a 1920x1080 canvas that paints the screen and puts a quarter-width camera overlay on it.

The recorder hands out one-second slices. Only the non-empty ones are kept. When the recorder
stops, the slices are published and the recorded stream's tracks are stopped. Downloading
concatenates the slices into one `video/webm` file and clears them.

The modules follow the program:

- `Media`: tracks (each with a `stopped` flag), streams with a fixed track list, byte blobs, and stopping every track of a stream.
- `Devices`: the `kind` filter and the "first device of the list" default selection.
- `Chunks`: the `dataavailable` fold and the concatenation that builds the download.
- `Compositor`: the canvas, its redraw loops and the overlay geometry.
- `Session`: the `MediaRecorder` together with the `chunks` array its handler appends to.
- `Home`: the `Controller` class. Its fields are the component's state and refs.
- `EndToEnd`: a whole "both" mode session composed from the controller's contracts.

Every browser call is a parameter saying how it turned out:

- whether a permission prompt is granted;
- whether a shared screen carries audio;
- whether the recorder accepts its options and starts;
- what `enumerateDevices` lists.

When a call would hand back a stream, the method allocates a new `Stream` with new live tracks.
The model therefore tracks aliasing and which tracks are stopped.

The model follows the code where the code is not what an idealised recorder would do:

- The camera-and-microphone stream fetched in "both" mode is never stopped. This holds when the display stream turns out to be missing, and also when the recorder stops. `StartRecording` returns it as a ghost `camMic`. Its tracks are live and disjoint from the recorded stream's, and `RecordBothAndDownload` shows they are still live after the download.
- In "both" mode the canvas capture stream has exactly one video track. No audio track is added to it.
- Redraw loops are only ever added to `Canvas.loops`. Each loop keeps the overlay position it captured. `combineStreams` resizes the canvas even when no 2D context is available.
- A screen-mode recording's stop handler stops the tracks of the display preview's own stream, and `displayStreamRef` still holds it. The next screen-mode recording is handed that stopped stream, because the screen preview is restarted only when the ref is empty.
- The permission stream `getDevices` requests first is dropped without stopping its tracks.
- The mode-change cleanup stops the tracks of both previews but keeps the refs. A later screen-mode recording can therefore be handed a display stream whose tracks are already stopped.

## Model

| member | source | states |
|---|---|---|
| Devices.OfKind | app/page.tsx:43-46 | the filtered list holds exactly the devices of the requested kind; it is never longer than the enumeration and is empty when no device has that kind |
| Devices.Chosen | app/page.tsx:51-56 | the id a selection holds after `if (list.length) set(list[0].deviceId)`: the head's id for a non-empty list, the current id otherwise; `ChosenIsDefault` gives its meaning over the whole enumeration |
| Devices.FirstOfKindHeadsFilter | app/page.tsx:43-52 | when index `i` holds the first device of a kind, the filtered list starts with that device |
| Devices.SomeOfKindHasFirst | app/page.tsx:51-56 | when any device of a kind is listed, some index holds the first one |
| Devices.ChosenIsDefault | app/page.tsx:43-56 | after enumeration the selection is the id of the first device of that kind if there is one, and is unchanged otherwise |
| Home.Controller.constructor | app/page.tsx:18-37 | initial state: not recording, no chunks, empty selections and device lists, mode "both", overlay at (20, 20), all refs empty |
| Home.Controller.GetDevices | app/page.tsx:39-60 | on failure nothing changes; otherwise the device lists are the two filters and each selection moves to the head of its list when that list is non-empty; no other field is written |
| Media.Stream.constructor | app/page.tsx:77 | a stream handed out by the browser has one new live track per requested kind |
| Media.Track.constructor | app/page.tsx:77 | a new track has the given kind and is live |
| Media.Track.Stop | app/page.tsx:65 | `stop()` leaves the track stopped |
| Media.StopTracks | app/page.tsx:65 | afterwards every track of the stream is stopped |
| Home.Controller.StartCameraPreview | app/page.tsx:62-87 | the previously held camera stream's tracks are all stopped; the ref and the preview element take a new live video-only stream only when the prompt is granted and the preview element exists; otherwise nothing else changes |
| Home.Controller.StartScreenPreview | app/page.tsx:89-108 | the previously held display stream's tracks are all stopped; the ref and the preview take a new live stream (a video track, plus audio when shared) only when granted and the preview exists; otherwise nothing else changes |
| Compositor.OverlayRect | app/page.tsx:132-140 | the overlay sits at the camera position, its width is a quarter of the canvas width and its height is 9/16 of its width |
| Compositor.Frame | app/page.tsx:131-140 | the two `drawImage` calls of one frame: the screen over the whole canvas, then the camera in `OverlayRect`; `FixedCanvasFrame` gives its value on the fixed canvas |
| Compositor.FixedCanvasFrame | app/page.tsx:117-140 | on the 1920x1080 canvas one frame draws the screen over the whole canvas and then the camera as a 480x270 rectangle at the position |
| Compositor.OverlayInsideIff | app/page.tsx:134-140 | the position is not clamped: the overlay lies on the canvas exactly when x is in [0, 1440] and y is in [0, 810] |
| Compositor.Canvas.constructor | app/page.tsx:36 | a canvas starts at the HTML default size of 300x150 with no redraw loops |
| Compositor.Canvas.StartDrawLoop | app/page.tsx:130-144 | exactly one loop over the two videos and the captured position is added; none is removed |
| Compositor.Canvas.CaptureStream | app/page.tsx:145 | the capture stream is new, has exactly one live video track, and none of its tracks existed before |
| Home.Controller.CombineStreams | app/page.tsx:110-146 | without a canvas the result is the display stream; a canvas is always resized to 1920x1080; without a 2D context the result is the display stream and no loop starts; with one, one loop is added and the result is a new video-only live stream. Every loop then draws the screen over 1920x1080 and the camera as 480x270 at that loop's position |
| Home.Controller.AcquireDisplay | app/page.tsx:163-165 | the screen preview is started only when no display stream is held; otherwise nothing changes |
| Home.Controller.StreamToRecord | app/page.tsx:150-186 | a stream is found exactly when both selections are set and the mode's acquisitions succeed. Camera mode gives a new camera-and-microphone stream; screen mode gives the display ref itself; "both" mode gives the canvas stream, or the display stream without a canvas or context. A display stream acquired on the way is new, with new live tracks. The "both" mode camera-and-microphone stream is returned live and disjoint from the result. Only the display ref, its preview and the canvas change |
| Session.MediaRecorder.constructor | app/page.tsx:188-190 | a new recorder holds the given stream and MIME type, is inactive and has no chunks |
| Session.MediaRecorder.Start | app/page.tsx:206 | the recorder is recording with the given slice interval |
| Home.Controller.CreateRecorder | app/page.tsx:188-207 | a recorder exists exactly when its options are supported. It records the given stream with "video/webm;codecs=vp9,opus" and starts with no chunks. It becomes the recorder ref. It is recording, with a 1000 ms slice interval, and `isRecording` is set, exactly when start succeeds |
| Home.Controller.StartRecording | app/page.tsx:148-213 | the contract of the dispatch and of the recorder together. No recorder is created and `isRecording` keeps its value unless a stream is found; an empty selection or a missing display stream finds none. A display stream acquired on the way is new, with new live tracks. Only the display ref, its preview, the recorder ref, `isRecording` and the canvas change |
| Session.MediaRecorder.OnDataAvailable | app/page.tsx:195-199 | a non-empty slice is appended at the end; an empty slice leaves the chunks unchanged; the chunks stay all non-empty |
| Chunks.Append | app/page.tsx:196-198 | one `dataavailable` event: the old chunks stay as a prefix, one chunk is added exactly when the slice is non-empty, and the added chunk is that slice |
| Chunks.Collect | app/page.tsx:193-199 | the chunk list after a run of events, one by one in arrival order: the old list stays as a prefix and at most one chunk is added per event |
| Chunks.CollectKeepsNonEmpty | app/page.tsx:193-199 | after any run of slices, the chunk list is the old list followed by the non-empty slices in arrival order |
| Chunks.NonEmptyContents | app/page.tsx:196-197 | the kept slices are all non-empty and are exactly the non-empty slices that arrived; there are never more of them than slices |
| Chunks.CollectPreservesNonEmpty | app/page.tsx:195-199 | slices delivered to an all-non-empty list leave it all non-empty |
| EndToEnd.Deliver | app/page.tsx:195-199 | the recorder's chunks after a run of events are the old chunks followed by the non-empty slices |
| Session.MediaRecorder.Stop | app/page.tsx:217 | the recorder is no longer recording |
| Home.Controller.StopRecording | app/page.tsx:215-221 | when a recorder exists and a recording is on, the recorder stops; otherwise nothing changes; afterwards `isRecording` is false and the recorder's chunks and slice interval are unchanged |
| Home.Controller.OnStop | app/page.tsx:201-204 | the published chunks are exactly the recorder's chunks, and every track of the recorded stream is stopped |
| Home.Controller.DownloadRecording | app/page.tsx:223-238 | with no chunks there is no file and nothing changes; otherwise the file is the chunks' bytes in order with type "video/webm", its size is the sum of the chunk sizes, and the chunks are cleared |
| Chunks.Concat | app/page.tsx:226 | `new Blob(recordedChunks)`: the bytes of every chunk, in list order; `ConcatSize`, `ConcatAppend` and `ChunkInPlace` state its properties |
| Chunks.ConcatSize | app/page.tsx:226 | the file's size is the sum of the chunk sizes |
| Chunks.ConcatAppend | app/page.tsx:226 | the bytes of two chunk lists joined are the bytes of the first list followed by those of the second |
| Chunks.ChunkInPlace | app/page.tsx:226 | chunk `i`'s bytes sit in the file right after the bytes of the chunks before it |
| Chunks.NonEmptyKeepsBytes | app/page.tsx:196-226 | dropping empty slices loses no bytes: the kept slices concatenate to the same bytes as all slices |
| Home.Controller.CleanupPreviews | app/page.tsx:246-253 | the held camera and display streams end with every track stopped; the refs are kept |
| Home.Controller.SetSelectedCamera | app/page.tsx:20 | the camera selection becomes the given id; only that field changes |
| Home.Controller.SetSelectedMicrophone | app/page.tsx:21 | the microphone selection becomes the given id; only that field changes |
| Home.Controller.SetCameraPosition | app/page.tsx:29 | the overlay position becomes the given one; only that field changes, so loops already started keep theirs |
| Home.Controller.SetRecordingMode | app/page.tsx:240-254 | the mode is set; an actual change stops every track of both held previews, and a repeated mode stops nothing |
| EndToEnd.StartBoth | app/page.tsx:148-213 | a "both" mode start with one camera, one microphone and every prompt granted is recording a live video-only canvas stream with no chunks; the camera-and-microphone stream is live and shares no track with it |
| EndToEnd.StopAndDownload | app/page.tsx:201-238 | from a recording in progress, stopping and downloading yields a file exactly when the recorder has chunks; the file is their bytes in order; the recorded stream ends stopped and the camera-and-microphone stream stays live |
| EndToEnd.RecordBothAndDownload | app/page.tsx:148-238 | a whole "both" mode session downloads a "video/webm" file holding the bytes of all delivered slices in order, and none when every slice was empty. The recorded stream is video-only and stopped; the camera-and-microphone stream is still live |

## Left out

- Browser media APIs are not modelled internally: `getUserMedia`, `getDisplayMedia`, `enumerateDevices`, `MediaRecorder`, `captureStream`, `Blob`, `URL.createObjectURL` and the anchor click. Their outcomes are parameters, and the streams they return are new objects.
- The stream from the first `getUserMedia` in `getDevices` (app/page.tsx:41) is only a permission request. It is discarded and its tracks are never stopped, so that camera and microphone capture keeps running. It is not modelled as a `Stream`.
- The constraints passed to `getUserMedia` and `getDisplayMedia` are not recorded: device ids, ideal resolution, `displaySurface`, `audio: true`. The capture frame rate of 30 is not recorded either.
- The pixels the redraw loop paints and the `requestAnimationFrame` rescheduling are left out. A loop is recorded as started, with its two videos and its position, and `Canvas.CurrentFrame` gives the draw calls of its next frame.
- The `<video>` elements created in `combineStreams` and their `play()` calls are left out.
- React scheduling is left out: effects run when a method is called, and `await`s do not interleave.
- The `selectedCamera` effect (app/page.tsx:256-260) and the body of the mode effect (app/page.tsx:241-244) are left out. They only call `StartCameraPreview`, `GetDevices` and `StartScreenPreview`, which are modelled.
- Exceptions are left out. A failed browser call is its parameter's failure value. A recorder that throws in `start` is `StartFails`; that recorder stays in the ref but is not recording.
- The one `chunks` array shared by the recorder's handler and `recordedChunks` is not modelled. After `onstop`, `recordedChunks` holds a copy of the chunk sequence.
- The download's file name (`recording-` plus an ISO timestamp) is left out.
- Toasts and `console.error` are left out.
- The components under `components/screen-recorder/` are JSX presentation and are not part of this model. That includes camera mirroring and the drag arithmetic of the overlay. The position a drag produces reaches the controller through `SetCameraPosition`.
- JavaScript numbers in the overlay geometry are exact reals. With canvas width 1920 every value involved is an integer.
