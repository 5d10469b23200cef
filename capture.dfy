/** The recording component of the web front end: it records from the
    microphone, collects the recorder's chunks, and when the recorder stops it
    posts one `audio/webm` blob to the backend's `/upload` and shows the
    transcript and summary, or an error.

    The component's state is a `Recorder` object whose methods are its event
    handlers. The browser's answers (microphone access, the recorder's data
    and stop events, the upload's response) arrive as method arguments or as
    separate method calls, in whatever order the environment chooses. */
module Capture {
  import opened Outcomes
  import opened Text
  import opened Media

  const DefaultApiBase := "http://localhost:8000"
  const UploadFilename := "audio.webm"
  const BlobType := "audio/webm"
  const MicrophoneDenied := "Microphone access denied"
  const UploadFailed := "Upload failed"

  /** The upload's response body as the component reads it. */
  datatype ApiResponse = ApiResponse(transcript: string, summary: Option<string>)

  /** What `getUserMedia` gave: a stream's tracks, or the message of the
      rejection (absent or empty when there is none). */
  datatype MicAccess = Granted(tracks: seq<Track>) | Denied(message: Option<string>)

  /** How the upload ended: a response body, or a rejection carrying the
      server's `detail` (if the server answered with one) and the error's
      own `message`. */
  datatype UploadOutcome =
    | Responded(data: ApiResponse)
    | Failed(responseDetail: Option<string>, message: Option<string>)

  /** The multipart request the component sends. */
  datatype Posted = Posted(url: string, field: string, blob: Blob, filename: string)

  /** The record/stop control: which label it shows and whether it is disabled. */
  datatype Label = RecordLabel | StopLabel
  datatype Control = Control(caption: Label, disabled: bool)

  datatype TrackState = Live | Ended

  /** A media track of the microphone stream. */
  class Track {
    var readyState: TrackState

    constructor ()
      ensures readyState == Live
    {
      readyState := Live;
    }

    /** Releases the device; stopping an ended track changes nothing. */
    method Stop()
      modifies this
      ensures readyState == Ended
    {
      readyState := Ended;
    }
  }

  datatype RecorderState = Inactive | Recording

  /** A media recorder over a stream's tracks. */
  class MediaRecorder {
    const stream: seq<Track>
    var state: RecorderState

    constructor (stream: seq<Track>)
      ensures this.stream == stream && state == Inactive
    {
      this.stream := stream;
      state := Inactive;
    }

    method Start()
      modifies this
      ensures state == Recording
    {
      state := Recording;
    }

    method Stop()
      modifies this
      ensures state == Inactive
    {
      state := Inactive;
    }
  }

  /** The bytes of `chunks`, one after another, in order. */
  function Concat(chunks: seq<Blob>): (bytes: seq<bv8>)
    ensures |bytes| == TotalSize(chunks)
    ensures chunks != [] ==> bytes[|bytes| - |chunks[|chunks| - 1].data|..] == chunks[|chunks| - 1].data
    decreases |chunks|
  {
    if chunks == [] then [] else Concat(chunks[..|chunks| - 1]) + chunks[|chunks| - 1].data
  }

  /** The combined size of `chunks`. */
  function TotalSize(chunks: seq<Blob>): nat
    decreases |chunks|
  {
    if chunks == [] then 0 else TotalSize(chunks[..|chunks| - 1]) + |chunks[|chunks| - 1].data|
  }

  /** Concatenation distributes over splitting the chunk list. */
  lemma {:induction false} ConcatSplit(a: seq<Blob>, b: seq<Blob>)
    ensures Concat(a + b) == Concat(a) + Concat(b)
    ensures TotalSize(a + b) == TotalSize(a) + TotalSize(b)
    decreases |b|
  {
    if b == [] {
      assert a + b == a;
    } else {
      var b' := b[..|b| - 1];
      var last := b[|b| - 1];
      assert (a + b)[..|a + b| - 1] == a + b';
      assert (a + b)[|a + b| - 1] == last;
      ConcatSplit(a, b');
      calc {
        Concat(a + b);
        Concat(a + b') + last.data;
        Concat(a) + Concat(b') + last.data;
        Concat(a) + (Concat(b') + last.data);
        Concat(a) + Concat(b);
      }
    }
  }

  /** The blob built on stop holds every chunk, in order: chunk `i` sits at the
      combined size of the chunks before it, and nothing else is in it. */
  lemma ConcatPlacesChunk(chunks: seq<Blob>, i: nat)
    requires i < |chunks|
    ensures |Concat(chunks)| == TotalSize(chunks)
    ensures TotalSize(chunks[..i]) + |chunks[i].data| <= |Concat(chunks)|
    ensures Concat(chunks)[TotalSize(chunks[..i])..TotalSize(chunks[..i]) + |chunks[i].data|] == chunks[i].data
  {
    var before, rest := chunks[..i], chunks[i + 1..];
    assert chunks == before + [chunks[i]] + rest;
    ConcatSplit(before + [chunks[i]], rest);
    ConcatSplit(before, [chunks[i]]);
    assert Concat([chunks[i]]) == chunks[i].data by {
      assert [chunks[i]][..0] == [];
    }
    assert TotalSize([chunks[i]]) == |chunks[i].data| by {
      assert [chunks[i]][..0] == [];
    }
  }

  /** The error text shown when an upload fails:
      `response.data.detail || message || 'Upload failed'`. */
  function UploadErrorText(outcome: UploadOutcome): (text: string)
    requires outcome.Failed?
    ensures text != ""
    ensures Truthy(outcome.responseDetail) ==> text == outcome.responseDetail.value
    ensures !Truthy(outcome.responseDetail) && Truthy(outcome.message) ==> text == outcome.message.value
    ensures !Truthy(outcome.responseDetail) && !Truthy(outcome.message) ==> text == UploadFailed
  {
    var candidates := [outcome.responseDetail, outcome.message];
    assert !Truthy(outcome.responseDetail) ==> NoneTruthyBefore(candidates, 1);
    FirstNonEmpty(candidates, UploadFailed)
  }

  /** The error text shown when the microphone cannot be had:
      `err.message || 'Microphone access denied'`. */
  function MicErrorText(message: Option<string>): (text: string)
    ensures text != ""
    ensures Truthy(message) ==> text == message.value
    ensures !Truthy(message) ==> text == MicrophoneDenied
  {
    FirstNonEmpty([message], MicrophoneDenied)
  }

  /** The recording component. */
  class Recorder {
    var recording: bool
    var loading: bool
    var result: Option<ApiResponse>
    var error: Option<string>
    /** The chunks collected since recording started (`chunksRef.current`). */
    var chunks: seq<Blob>
    /** The current recorder (`mediaRecorderRef.current`). */
    var mediaRecorder: MediaRecorder?
    /** `NEXT_PUBLIC_API_BASE || 'http://localhost:8000'`. */
    const apiBase: string

    /** What the component keeps true between events: a shown error is never
        empty, every kept chunk holds data, and while recording there is a
        recorder. */
    ghost predicate Valid()
      reads this
    {
      && (error.Some? ==> error.value != "")
      && (forall i :: 0 <= i < |chunks| ==> |chunks[i].data| > 0)
      && (recording ==> mediaRecorder != null)
    }

    /** The tracks `stopRecording` releases. */
    ghost function Devices(): set<object>
      reads this, mediaRecorder
    {
      if mediaRecorder == null then {} else set t | t in mediaRecorder.stream
    }

    constructor (publicApiBase: Option<string>)
      ensures Valid()
      ensures !recording && !loading && result == None && error == None
      ensures chunks == [] && mediaRecorder == null
      ensures Truthy(publicApiBase) ==> apiBase == publicApiBase.value
      ensures !Truthy(publicApiBase) ==> apiBase == DefaultApiBase
    {
      recording, loading := false, false;
      result, error := None, None;
      chunks := [];
      mediaRecorder := null;
      apiBase := FirstNonEmpty([publicApiBase], DefaultApiBase);
    }

    /** The control the component renders: Stop while recording, Record
        otherwise, disabled while an upload is in flight. */
    function View(): (c: Control)
      reads this
      ensures c.caption == StopLabel <==> recording
      ensures c.disabled <==> loading
    {
      Control(if recording then StopLabel else RecordLabel, loading)
    }

    /** `startRecording`: clears the error and the result, asks for the
        microphone, and on success starts a fresh recorder over the stream
        with an empty chunk list; on failure shows the reason. */
    method StartRecording(access: MicAccess)
      requires Valid()
      modifies this
      ensures Valid()
      ensures result == None && loading == old(loading)
      ensures access.Denied? ==>
                && error == Some(MicErrorText(access.message))
                && recording == old(recording) && chunks == old(chunks)
                && mediaRecorder == old(mediaRecorder)
      ensures access.Granted? ==>
                && error == None && recording && chunks == []
                && mediaRecorder != null && fresh(mediaRecorder)
                && mediaRecorder.stream == access.tracks && mediaRecorder.state == Recording
    {
      error := None;
      result := None;
      match access
      case Denied(message) =>
        error := Some(MicErrorText(message));
      case Granted(tracks) =>
        var mr := new MediaRecorder(tracks);
        mediaRecorder := mr;
        chunks := [];
        mr.Start();
        recording := true;
    }

    /** The recorder's `dataavailable` event: a chunk with data is appended,
        an empty one is dropped. */
    method OnDataAvailable(data: Blob)
      requires Valid()
      modifies this`chunks
      ensures Valid()
      ensures chunks == if |data.data| > 0 then old(chunks) + [data] else old(chunks)
    {
      if |data.data| > 0 {
        chunks := chunks + [data];
      }
    }

    /** `stopRecording`: stops the recorder, stops every track of its stream,
        and leaves the recording state. Without a recorder it only does the
        last. The recorder itself is kept. */
    method StopRecording()
      requires Valid()
      modifies this`recording, mediaRecorder, Devices()
      ensures Valid()
      ensures !recording && mediaRecorder == old(mediaRecorder)
      ensures mediaRecorder != null ==> mediaRecorder.state == Inactive
      ensures mediaRecorder != null ==>
                forall k :: 0 <= k < |mediaRecorder.stream| ==> mediaRecorder.stream[k].readyState == Ended
    {
      var mr := mediaRecorder;
      if mr != null {
        mr.Stop();
        var tracks := mr.stream;
        var i := 0;
        while i < |tracks|
          invariant 0 <= i <= |tracks|
          invariant mr.state == Inactive
          invariant forall k :: 0 <= k < i ==> tracks[k].readyState == Ended
        {
          tracks[i].Stop();
          i := i + 1;
        }
      }
      recording := false;
    }

    /** `upload`, up to its request: shows the spinner, clears the error, and
        posts the blob as `file` named `audio.webm` to `{apiBase}/upload`. */
    method BeginUpload(blob: Blob) returns (posted: Posted)
      requires Valid()
      modifies this`loading, this`error
      ensures Valid()
      ensures loading && error == None
      ensures posted == Posted(apiBase + "/upload", "file", blob, UploadFilename)
    {
      loading := true;
      error := None;
      posted := Posted(apiBase + "/upload", "file", blob, UploadFilename);
    }

    /** The recorder's `stop` event: one `audio/webm` blob of all chunks, in
        order, is uploaded. */
    method OnStop() returns (posted: Posted)
      requires Valid()
      modifies this`loading, this`error
      ensures Valid()
      ensures loading && error == None
      ensures posted.url == apiBase + "/upload" && posted.field == "file" && posted.filename == UploadFilename
      ensures posted.blob == Blob(Concat(chunks), BlobType, None)
    {
      posted := BeginUpload(Blob(Concat(chunks), BlobType, None));
    }

    /** `upload`, once the request settles: the response body becomes the
        result, or the failure's text becomes the error; either way the
        spinner goes away. */
    method FinishUpload(outcome: UploadOutcome)
      requires Valid()
      modifies this`loading, this`result, this`error
      ensures Valid()
      ensures !loading
      ensures outcome.Responded? ==> result == Some(outcome.data) && error == old(error)
      ensures outcome.Failed? ==> error == Some(UploadErrorText(outcome)) && result == old(result)
    {
      match outcome {
        case Responded(data) =>
          result := Some(data);
        case Failed(_, _) =>
          error := Some(UploadErrorText(outcome));
      }
      loading := false;
    }

    /** A click on the control: ignored while it is disabled, otherwise Stop
        or Record according to its label. */
    method Press(access: MicAccess)
      requires Valid()
      modifies this, mediaRecorder, Devices()
      ensures Valid()
      ensures old(loading) ==>
                && unchanged(this) && unchanged(old(Devices()))
                && (old(mediaRecorder) != null ==> unchanged(old(mediaRecorder)))
      ensures !old(loading) && old(recording) ==>
                && !recording && mediaRecorder == old(mediaRecorder) && mediaRecorder != null
                && chunks == old(chunks) && result == old(result) && error == old(error) && !loading
                && mediaRecorder.state == Inactive
                && forall k :: 0 <= k < |mediaRecorder.stream| ==> mediaRecorder.stream[k].readyState == Ended
      ensures !old(loading) && !old(recording) ==>
                && unchanged(old(Devices()))
                && (old(mediaRecorder) != null ==> unchanged(old(mediaRecorder)))
      ensures !old(loading) && !old(recording) && access.Granted? ==>
                && recording && chunks == [] && error == None && result == None && !loading
                && mediaRecorder != null && fresh(mediaRecorder) && mediaRecorder.stream == access.tracks
                && mediaRecorder.state == Recording
      ensures !old(loading) && !old(recording) && access.Denied? ==>
                && !recording && error == Some(MicErrorText(access.message)) && result == None && !loading
                && chunks == old(chunks) && mediaRecorder == old(mediaRecorder)
    {
      if loading {
        return;
      }
      if recording {
        StopRecording();
      } else {
        StartRecording(access);
      }
    }
  }

  /** The component's own test: record, stop (the recorder delivers one
      four-byte chunk), and a backend that answers "mock transcript" and
      "mock summary"; both strings end up shown and the spinner is gone. */
  method RecordStopAndShow() returns (shown: Option<ApiResponse>, spinning: bool, shownError: Option<string>,
                                      released: bool, sent: Posted)
    ensures shown == Some(ApiResponse("mock transcript", Some("mock summary")))
    ensures !spinning && shownError == None && released
    ensures sent.filename == UploadFilename && sent.blob == Blob([0x74, 0x65, 0x73, 0x74], BlobType, None)
  {
    var track := new Track();
    var r := new Recorder(None);
    r.Press(Granted([track]));
    assert r.View().caption == StopLabel;
    // The second click lands on Stop; a click on Stop never asks for the
    // microphone, so the access it would be given plays no part.
    r.Press(Denied(None));
    assert r.mediaRecorder.stream == [track] && r.mediaRecorder.stream[0].readyState == Ended;
    assert track.readyState == Ended;
    r.OnDataAvailable(Blob([0x74, 0x65, 0x73, 0x74], BlobType, None));
    sent := r.OnStop();
    assert Concat(r.chunks) == [0x74, 0x65, 0x73, 0x74] by {
      assert r.chunks[..0] == [];
    }
    r.FinishUpload(Responded(ApiResponse("mock transcript", Some("mock summary"))));
    shown, spinning, shownError := r.result, r.loading, r.error;
    released := track.readyState == Ended;
  }
}
