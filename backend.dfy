/** The backend's `/upload` decision logic and the configuration it derives
    from its environment.

    The handler checks the filename, reads the file, and then either builds
    a demo transcript (mock mode) or asks the speech-to-text and the chat
    completion services. Those two calls are foreign: their outcomes are
    parameters here. Which calls the handler makes is part of its result, so
    that "nothing is read" and "no summary is attempted" can be stated. */
module Backend {
  import opened Outcomes
  import opened Text

  /** The container extensions the handler accepts, in the order it tries them. */
  const SupportedExtensions: seq<string> := [".webm", ".wav", ".mp3", ".m4a", ".ogg", ".mp4", ".mov"]

  const UnsupportedFormatDetail := "Unsupported file format"
  const MockPrefix := "[mock] Received "
  const MockMiddle := " bytes from "
  const MockSummary := "[mock] Summary: Demo mode is enabled (no external API calls)."
  const SummaryFailedPrefix := "summary_failed: "
  /** What Python says when `.strip()` is called on `None`. */
  const NoneStripMessage := "'NoneType' object has no attribute 'strip'"
  const LocalOrigins: seq<string> := ["http://localhost:3000", "http://127.0.0.1:3000"]

  // ---------------------------------------------------------------------------
  // Filename acceptance
  // ---------------------------------------------------------------------------

  /** `any(ext in hay for ext in needles)`. */
  function ContainsAny(hay: string, needles: seq<string>): (r: bool)
    ensures r <==> exists k :: 0 <= k < |needles| && Contains(hay, needles[k])
    decreases |needles|
  {
    if needles == [] then false
    else
      assert forall k :: 0 < k < |needles| ==> needles[k] == needles[1..][k - 1];
      Contains(hay, needles[0]) || ContainsAny(hay, needles[1..])
  }

  /** The handler's format check on `file.filename`: a filename is accepted
      exactly when one of the extensions occurs, anywhere, in its lower-cased
      form. */
  function IsSupportedFilename(filename: string): (ok: bool)
    ensures ok <==> exists k, i :: 0 <= k < |SupportedExtensions| && OccursAt(SupportedExtensions[k], Lower(filename), i)
  {
    ContainsAny(Lower(filename), SupportedExtensions)
  }

  /** An extension anywhere in the name, in any letter case, is enough:
      `clip.MP3`, and `clip.mp3.txt` too. */
  lemma ExtensionAnywhereAccepted(before: string, k: nat, after: string)
    requires k < |SupportedExtensions|
    ensures IsSupportedFilename(before + SupportedExtensions[k] + after)
  {
    var ext := SupportedExtensions[k];
    var name := before + ext + after;
    var low := Lower(name);
    assert low[|before|..|before| + |ext|] == ext;
    assert OccursAt(ext, low, |before|);
  }

  /** A plain-text note is refused. */
  lemma TextNoteRefused()
    ensures !IsSupportedFilename("note.txt")
  {
    var low := Lower("note.txt");
    assert low == "note.txt";
    forall k, i | 0 <= k < |SupportedExtensions| && 0 <= i
      ensures !OccursAt(SupportedExtensions[k], low, i)
    {
      var ext := SupportedExtensions[k];
      if i + |ext| <= |low| {
        assert low[i..i + |ext|][0] == low[i];
        assert ext[0] == '.';
        assert low[i] != '.' || i == 4;
        if i == 4 {
          assert low[5] == 't' && ext[1] != 't';
          assert low[i..i + |ext|][1] == low[5];
        }
      }
    }
  }

  /** Letter case never matters to the check. */
  lemma SupportIgnoresCase(filename: string)
    ensures IsSupportedFilename(Lower(filename)) == IsSupportedFilename(filename)
  {
    LowerIdempotent(filename);
  }

  // ---------------------------------------------------------------------------
  // The upload handler
  // ---------------------------------------------------------------------------

  /** What the speech-to-text call returned, or the message of what it raised. */
  datatype Transcription = Transcribed(text: string) | TranscriptionRaised(message: string)

  /** The first choice's message content of the chat completion (possibly
      `None`), or the message of what the call raised. */
  datatype Completion = Completed(content: Option<string>) | CompletionRaised(message: string)

  /** The `TranscriptionResponse` body. */
  datatype TranscriptionResponse = TranscriptionResponse(
    transcript: string,
    summary: Option<string>,
    summaryError: Option<string>)

  /** Why a request was refused. The 500 replies' detail text is left to the
      web framework and not modelled; the cause records which check fired. */
  datatype Cause =
    | UnsupportedFormat
    | TempFileFailed(message: string)
    | TranscriptionFailed(message: string)
    | EmptyTranscript

  /** What became of the temporary file the upload is saved to, whose name
      ends with the client's filename: created and written, or the message
      of what creating it (before the upload is read) or writing it (after)
      raised. Creating it fails, for one, when the filename names a directory
      that does not exist (`a/b.webm`). */
  datatype TempFile = Saved | CreateRaised(message: string) | WriteRaised(message: string)

  datatype Reply = Accepted(body: TranscriptionResponse) | Rejected(status: int, cause: Cause)

  /** Which effects the handler performed. */
  datatype Calls = Calls(readFile: bool, transcribe: bool, summarize: bool)

  datatype Handled = Handled(reply: Reply, calls: Calls)

  /** The detail of a refused request that the model pins down. */
  function DetailOf(cause: Cause): Option<string>
  {
    if cause.UnsupportedFormat? then Some(UnsupportedFormatDetail) else None
  }

  /** The mock-mode transcript for `size` bytes received under `filename`. */
  function MockTranscript(size: nat, filename: string): (t: string)
    ensures |MockPrefix| + 1 + |MockMiddle| + |filename| + 1 <= |t|
    ensures t[..|MockPrefix|] == MockPrefix
    ensures t[|t| - |filename| - 1..] == filename + "."
  {
    MockPrefix + DecimalString(size) + MockMiddle + filename + "."
  }

  /** The summary step of real mode: the stripped completion text, or no
      summary and the reason. */
  function Summarize(transcript: string, completion: Completion): (r: TranscriptionResponse)
    ensures r.transcript == transcript
    ensures r.summary.Some? <==> r.summaryError.None?
    ensures r.summary.Some? <==> completion.Completed? && completion.content.Some?
    ensures r.summary.Some? ==> r.summary.value == Strip(completion.content.value)
    ensures r.summaryError.Some? ==>
              |SummaryFailedPrefix| <= |r.summaryError.value|
              && r.summaryError.value[..|SummaryFailedPrefix|] == SummaryFailedPrefix
  {
    match completion
    case Completed(Some(content)) => TranscriptionResponse(transcript, Some(Strip(content)), None)
    case Completed(None) => TranscriptionResponse(transcript, None, Some(SummaryFailedPrefix + NoneStripMessage))
    case CompletionRaised(message) => TranscriptionResponse(transcript, None, Some(SummaryFailedPrefix + message))
  }

  /** The handler for `POST /upload`. */
  function Upload(useMock: bool, filename: string, contents: seq<bv8>, tempFile: TempFile,
                  transcription: Transcription, completion: Completion): (h: Handled)
    ensures h.calls.readFile <==> IsSupportedFilename(filename) && !tempFile.CreateRaised?
    ensures h.calls.transcribe <==> h.calls.readFile && tempFile.Saved? && !useMock
    ensures h.calls.summarize <==> h.reply.Accepted? && !useMock
    ensures h.reply.Accepted? ==> tempFile.Saved?
    ensures h.reply.Rejected? ==> h.reply.status == (if IsSupportedFilename(filename) then 500 else 400)
  {
    if !IsSupportedFilename(filename) then
      Handled(Rejected(400, UnsupportedFormat), Calls(false, false, false))
    else
      match tempFile
      case CreateRaised(message) => Handled(Rejected(500, TempFileFailed(message)), Calls(false, false, false))
      case WriteRaised(message) => Handled(Rejected(500, TempFileFailed(message)), Calls(true, false, false))
      case Saved =>
        if useMock then
          Handled(Accepted(TranscriptionResponse(MockTranscript(|contents|, filename), Some(MockSummary), None)),
                  Calls(true, false, false))
        else
          match transcription
          case TranscriptionRaised(message) =>
            Handled(Rejected(500, TranscriptionFailed(message)), Calls(true, true, false))
          case Transcribed(text) =>
            if Strip(text) == [] then Handled(Rejected(500, EmptyTranscript), Calls(true, true, false))
            else Handled(Accepted(Summarize(text, completion)), Calls(true, true, true))
  }

  /** An unsupported name is refused 400 "Unsupported file format" before the
      file is saved or read or any service is called; a supported one is read
      unless creating the temporary file already failed. */
  lemma UnsupportedRefusedUnread(useMock: bool, filename: string, contents: seq<bv8>, tempFile: TempFile,
                                 transcription: Transcription, completion: Completion)
    ensures var h := Upload(useMock, filename, contents, tempFile, transcription, completion);
            !IsSupportedFilename(filename) <==> h.reply == Rejected(400, UnsupportedFormat)
    ensures var h := Upload(useMock, filename, contents, tempFile, transcription, completion);
            !h.calls.readFile <==> !IsSupportedFilename(filename) || tempFile.CreateRaised?
    ensures var h := Upload(useMock, filename, contents, tempFile, transcription, completion);
            !h.calls.readFile ==>
              && !h.calls.transcribe && !h.calls.summarize
              && DetailOf(h.reply.cause) == (if IsSupportedFilename(filename) then None else Some(UnsupportedFormatDetail))
  {
  }

  /** A temporary file that cannot be created or written is a 500 in either
      mode, and no service is called. */
  lemma TempFileFailureIsServerError(useMock: bool, filename: string, contents: seq<bv8>, tempFile: TempFile,
                                     transcription: Transcription, completion: Completion)
    requires IsSupportedFilename(filename)
    ensures var h := Upload(useMock, filename, contents, tempFile, transcription, completion);
            !tempFile.Saved? ==> h.reply == Rejected(500, TempFileFailed(tempFile.message))
    ensures var h := Upload(useMock, filename, contents, tempFile, transcription, completion);
            tempFile.Saved? ==> !(h.reply.Rejected? && h.reply.cause.TempFileFailed?)
    ensures var h := Upload(useMock, filename, contents, tempFile, transcription, completion);
            !tempFile.Saved? ==> !h.calls.transcribe && !h.calls.summarize
  {
  }

  /** Mock mode answers every supported upload whose temporary file was saved
      with the demo transcript that names the byte count and the filename,
      the fixed summary and no summary error, and calls no service. */
  lemma MockModeReply(filename: string, contents: seq<bv8>, transcription: Transcription, completion: Completion)
    requires IsSupportedFilename(filename)
    ensures var h := Upload(true, filename, contents, Saved, transcription, completion);
            && h.reply == Accepted(TranscriptionResponse(MockTranscript(|contents|, filename), Some(MockSummary), None))
            && !h.calls.transcribe && !h.calls.summarize
  {
  }

  /** In real mode a failed transcription is a 500, and no summary is tried. */
  lemma TranscriptionFailureIsServerError(filename: string, contents: seq<bv8>, message: string, completion: Completion)
    requires IsSupportedFilename(filename)
    ensures var h := Upload(false, filename, contents, Saved, TranscriptionRaised(message), completion);
            h.reply.Rejected? && h.reply.status == 500 && h.calls.transcribe && !h.calls.summarize
  {
  }

  /** In real mode a transcript that is empty after `strip()` is a 500. */
  lemma BlankTranscriptIsServerError(filename: string, contents: seq<bv8>, text: string, completion: Completion)
    requires IsSupportedFilename(filename)
    requires forall i :: 0 <= i < |text| ==> IsSpace(text[i])
    ensures var h := Upload(false, filename, contents, Saved, Transcribed(text), completion);
            h.reply == Rejected(500, EmptyTranscript) && !h.calls.summarize
  {
    StripEmptyIffAllSpace(text);
  }

  /** A failed summary does not fail the request: the transcript is kept as
      transcribed, there is no summary, and the error names the failure. */
  lemma SummaryFailureDegrades(filename: string, contents: seq<bv8>, text: string, message: string)
    requires IsSupportedFilename(filename)
    requires exists i :: 0 <= i < |text| && !IsSpace(text[i])
    ensures Upload(false, filename, contents, Saved, Transcribed(text), CompletionRaised(message)).reply
            == Accepted(TranscriptionResponse(text, None, Some(SummaryFailedPrefix + message)))
  {
    StripEmptyIffAllSpace(text);
  }

  /** A summary that arrives is returned stripped, with no summary error. */
  lemma SummarySuccess(filename: string, contents: seq<bv8>, text: string, content: string)
    requires IsSupportedFilename(filename)
    requires exists i :: 0 <= i < |text| && !IsSpace(text[i])
    ensures Upload(false, filename, contents, Saved, Transcribed(text), Completed(Some(content))).reply
            == Accepted(TranscriptionResponse(text, Some(Strip(content)), None))
  {
    StripEmptyIffAllSpace(text);
  }

  /** Every accepted reply, in either mode, carries a transcript with some
      non-white-space text, and exactly one of a summary and a summary error;
      a summary error always starts with "summary_failed: ". */
  lemma AcceptedReplyShape(useMock: bool, filename: string, contents: seq<bv8>, tempFile: TempFile,
                           transcription: Transcription, completion: Completion)
    ensures var h := Upload(useMock, filename, contents, tempFile, transcription, completion);
            h.reply.Accepted? ==>
              && Strip(h.reply.body.transcript) != []
              && (h.reply.body.summary.Some? <==> h.reply.body.summaryError.None?)
              && (h.reply.body.summaryError.Some? ==>
                    |SummaryFailedPrefix| <= |h.reply.body.summaryError.value|
                    && h.reply.body.summaryError.value[..|SummaryFailedPrefix|] == SummaryFailedPrefix)
  {
    var h := Upload(useMock, filename, contents, tempFile, transcription, completion);
    if h.reply.Accepted? && useMock {
      var t := h.reply.body.transcript;
      assert t[0] == '[';
      StripEmptyIffAllSpace(t);
    }
  }

  /** A 500 has exactly two sources, for a supported name: the temporary file
      could not be saved (in either mode), or in real mode the transcription
      raised or came back blank. It always stops short of the summary. */
  lemma ServerErrorCauses(useMock: bool, filename: string, contents: seq<bv8>, tempFile: TempFile,
                          transcription: Transcription, completion: Completion)
    ensures var h := Upload(useMock, filename, contents, tempFile, transcription, completion);
            h.reply.Rejected? && h.reply.status == 500 <==>
              && IsSupportedFilename(filename)
              && (!tempFile.Saved?
                  || (!useMock && (transcription.TranscriptionRaised? || Strip(transcription.text) == [])))
    ensures var h := Upload(useMock, filename, contents, tempFile, transcription, completion);
            h.reply.Rejected? ==> !h.calls.summarize
  {
  }

  /** Reads a mock transcript back into the byte count and the filename. */
  function ParseMockTranscript(s: string): Option<(nat, string)>
  {
    if |s| < |MockPrefix| || s[..|MockPrefix|] != MockPrefix then None
    else
      var rest := s[|MockPrefix|..];
      var k := LeadingDigits(rest);
      var tail := rest[k..];
      if k == 0 || |tail| < |MockMiddle| + 1 || tail[..|MockMiddle|] != MockMiddle || tail[|tail| - 1] != '.' then None
      else Some((ParseDecimal(rest[..k]), tail[|MockMiddle|..|tail| - 1]))
  }

  /** The mock transcript states the received size and the filename exactly:
      both can be read back from it. */
  lemma MockTranscriptRoundTrip(size: nat, filename: string)
    ensures ParseMockTranscript(MockTranscript(size, filename)) == Some((size, filename))
  {
    var d := DecimalString(size);
    var s := MockTranscript(size, filename);
    var tail := MockMiddle + filename + ".";
    assert s == MockPrefix + (d + tail);
    assert s[..|MockPrefix|] == MockPrefix;
    var rest := s[|MockPrefix|..];
    assert rest == d + tail;
    LeadingDigitsOfRun(d, tail);
    assert rest[..|d|] == d;
    assert rest[|d|..] == tail;
    assert tail[..|MockMiddle|] == MockMiddle;
    assert tail[|MockMiddle|..|tail| - 1] == filename;
    DecimalRoundTrip(size);
  }

  // ---------------------------------------------------------------------------
  // Configuration
  // ---------------------------------------------------------------------------

  /** "true" in some letter case, and nothing around it. */
  predicate IsTrueInAnyCase(v: string)
  {
    |v| == 4 && v[0] in "tT" && v[1] in "rR" && v[2] in "uU" && v[3] in "eE"
  }

  /** `os.getenv(name, default).lower() == "true"`; `None` is an unset variable.
      The flag is on exactly when the value, or the default when unset, is
      "true" in some letter case. */
  function EnvFlag(value: Option<string>, default: string): (on: bool)
    ensures on <==> IsTrueInAnyCase(if value.Some? then value.value else default)
  {
    var v := if value.Some? then value.value else default;
    if |v| == 4 then
      assert Lower(v) == [LowerChar(v[0]), LowerChar(v[1]), LowerChar(v[2]), LowerChar(v[3])];
      Lower(v) == "true"
    else
      Lower(v) == "true"
  }

  /** `USE_MOCK`, on by default. */
  function UseMock(value: Option<string>): (on: bool)
    ensures value.None? ==> on
    ensures value.Some? ==> (on <==> IsTrueInAnyCase(value.value))
  {
    EnvFlag(value, "true")
  }

  /** `DEV_ALLOW_ALL_CORS`, off by default. */
  function AllowAllCors(value: Option<string>): (on: bool)
    ensures value.None? ==> !on
    ensures value.Some? ==> (on <==> IsTrueInAnyCase(value.value))
  {
    EnvFlag(value, "false")
  }

  /** A flag reads the same whatever the letter case of its value. */
  lemma FlagIgnoresCase(value: string, default: string)
    ensures EnvFlag(Some(Lower(value)), default) == EnvFlag(Some(value), default)
  {
    LowerIdempotent(value);
  }

  /** Which spellings switch a flag on: any letter case of "true", and
      nothing else; surrounding blanks are not trimmed. */
  lemma FlagSpellings()
    ensures UseMock(Some("TRUE")) && UseMock(Some("True")) && UseMock(None)
    ensures !UseMock(Some("false")) && !UseMock(Some("1")) && !UseMock(Some("")) && !UseMock(Some(" true"))
    ensures AllowAllCors(Some("TrUe")) && !AllowAllCors(None) && !AllowAllCors(Some("yes"))
  {
  }

  /** The allowed CORS origins: every origin when all are allowed, otherwise
      the two local development addresses of the front end. */
  method CorsOrigins(allowAll: bool) returns (origins: seq<string>)
    ensures "*" in origins <==> allowAll
    ensures allowAll ==> origins == ["*"]
    ensures !allowAll ==> origins == LocalOrigins
  {
    origins := LocalOrigins;
    if allowAll {
      origins := ["*"];
    }
  }
}
