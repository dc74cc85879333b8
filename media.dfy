/** Media handles: the opaque objects the browser hands out (tracks, streams, data slices).
    Only what the recording controller observes of them is modelled: a track's kind and
    whether it has been stopped, a stream's fixed list of tracks, and a slice's bytes. */
module Media {

  datatype Option<T> = None | Some(value: T)

  newtype byte = x: int | 0 <= x < 256

  /** A `Blob`: an immutable run of bytes, here one slice of encoder output. */
  datatype Blob = Blob(bytes: seq<byte>) {
    function Size(): nat { |bytes| }
  }

  datatype TrackKind = Video | Audio

  /** A `MediaStreamTrack`; `stop()` ends it for good. */
  class Track {
    const kind: TrackKind
    var stopped: bool

    constructor (kind: TrackKind)
      ensures this.kind == kind && !stopped
    {
      this.kind := kind;
      stopped := false;
    }

    method Stop()
      modifies this
      ensures stopped
    {
      stopped := true;
    }
  }

  /** A `MediaStream`. The controller never adds or removes tracks, so the track list is fixed. */
  class Stream {
    const tracks: seq<Track>

    /** A stream freshly produced by the browser, with one new live track per requested kind. */
    constructor (kinds: seq<TrackKind>)
      ensures Kinds() == kinds
      ensures forall i :: 0 <= i < |tracks| ==> fresh(tracks[i]) && !tracks[i].stopped
    {
      var ts: seq<Track> := [];
      var i := 0;
      while i < |kinds|
        invariant 0 <= i <= |kinds| && |ts| == i
        invariant forall j :: 0 <= j < i ==> ts[j].kind == kinds[j] && fresh(ts[j]) && !ts[j].stopped
      {
        var t := new Track(kinds[i]);
        ts := ts + [t];
        i := i + 1;
      }
      tracks := ts;
    }

    function Tracks(): set<Track>
    {
      set t | t in tracks
    }

    function Kinds(): seq<TrackKind>
    {
      seq(|tracks|, i requires 0 <= i < |tracks| => tracks[i].kind)
    }
  }

  function TracksOf(s: Stream?): set<Track>
  {
    if s == null then {} else s.Tracks()
  }

  ghost predicate AllStopped(s: Stream)
    reads s.Tracks()
  {
    forall i :: 0 <= i < |s.tracks| ==> s.tracks[i].stopped
  }

  ghost predicate AllLive(s: Stream)
    reads s.Tracks()
  {
    forall i :: 0 <= i < |s.tracks| ==> !s.tracks[i].stopped
  }

  /** Every track of `s` was allocated by the current operation. */
  twostate predicate FreshTracks(new s: Stream)
  {
    forall i :: 0 <= i < |s.tracks| ==> fresh(s.tracks[i])
  }

  /** `stream.getTracks().forEach(track => track.stop())`. */
  method StopTracks(s: Stream)
    modifies s.Tracks()
    ensures AllStopped(s)
  {
    var i := 0;
    while i < |s.tracks|
      invariant 0 <= i <= |s.tracks|
      invariant forall j :: 0 <= j < i ==> s.tracks[j].stopped
    {
      s.tracks[i].Stop();
      i := i + 1;
    }
  }
}
