# Transcripto capture-and-relay core, in Dafny

Transcripto records speech in the browser, sends the audio to a backend that
transcribes and summarises it, and shows the transcript and summary. This
project models the three pieces of that pipeline that make decisions:

- **The upload relay** (`Relay`, `relay.dfy`): the Next.js route
  `POST /api/upload`. It resolves the backend address, refuses a form without
  binary `file` content, forwards the file under its own name or
  `audio.webm`, and maps the backend's answer onto one JSON reply. There are
  four backend outcomes: failed or succeeded, each with a JSON or a text
  body. A thrown failure becomes a 502. The handler is stateless and is
  modelled as a function. Its inputs are the environment, the parsed form
  (or what parsing threw), and the backend response (or what `fetch`
  threw), together with what reading its body yields.
- **The recording component** (`Capture`, `capture.dfy`): the React
  `Recorder`. It is a class whose fields are the component's state:
  `recording`, `loading`, `result`, `error`, the chunk list and the current
  media recorder. Its methods are the component's handlers: start (granted
  or denied), data-available, stop (a loop that stops every track of the
  stream), the recorder's stop event, upload begin and upload end, and a
  click on the Record/Stop control. Browser answers arrive as arguments.
- **The backend's upload decisions** (`Backend`, `backend.dfy`): the FastAPI
  handler's filename check, the temporary file, the mock-mode transcript and
  the real-mode outcome mapping. A temporary file that cannot be created or
  written (its name ends with the client's filename, so `a/b.webm` already
  fails) is a 500 in either mode, and so is a failed or blank transcription. A failed
  summary keeps the transcript and reports `summary_error`. The module also
  covers the `USE_MOCK` and `DEV_ALLOW_ALL_CORS` flags and the CORS origins.
  What creating and writing the temporary file raised, and the
  speech-to-text and chat-completion calls, are parameters. The result
  records which of reading the file, transcribing and summarising took
  place.

`Text` (`text.dfy`) gives the string operations their host-language meaning:
`includes` and Python's `in`, a chain of `||` over possibly undefined
strings, `str.lower()`, `str.strip()`, and decimal formatting. `Outcomes`
(`outcomes.dfy`) holds `Option` and `Result`, and `Media` (`media.dfy`) the
`Blob` both front-end pieces pass around.

Behaviour a reader might expect but which the code does not have, and which
the model therefore does not have either:

- the component has no file picker, drag-and-drop or MIME allow-list;
- it posts straight to `{NEXT_PUBLIC_API_BASE || 'http://localhost:8000'}/upload`, not through the relay;
- stopping neither sets `loading` nor uploads; the upload starts when the recorder's stop event arrives;
- tracks are released only by `stopRecording`, not when starting fails;
- there is no guard against a stale upload response;
- the backend accepts a filename when an extension occurs anywhere in it, not only at the end;
- the relay answers every backend success with status 200, whatever 2xx the backend sent;
- the relay does not pass a failing 304 through: `NextResponse.json` may not build a body under that status, it throws, and the `catch` answers 502 without the timing header;
- likewise for a backend status above 599, which Node's `fetch` delivers but the `Response` constructor refuses: that reply is a 502 too.

## Model

| member | source | states |
|---|---|---|
| `Text.FirstNonEmpty` | frontend/app/api/upload/route.ts:10 | a chain of `or` over strings: the first defined, non-empty candidate wins; the fallback only when there is none |
| `Text.Contains` | frontend/app/api/upload/route.ts:34 | substring test: true iff the needle occurs at some index of the string |
| `Relay.BackendBase` | frontend/app/api/upload/route.ts:10 | `BACKEND_BASE_URL`, else `NEXT_PUBLIC_API_BASE`, else `http://127.0.0.1:8000`; an empty variable counts as unset; never empty |
| `Relay.Post` | frontend/app/api/upload/route.ts:6-63 | only binary `file` content is forwarded, always as the one part `file`; without a forward the reply is 400 for a parsed form and 502 otherwise; every reply is 200, 400, 502 or the backend's own failing status |
| `Relay.MissingFileNotForwarded` | frontend/app/api/upload/route.ts:13-17 | something is forwarded iff the form has binary `file` content; a parsed form without it gets 400 `{detail: "Missing file"}` |
| `Relay.ForwardedFilename` | frontend/app/api/upload/route.ts:21 | the file's own non-empty name, else `audio.webm` |
| `Relay.ForwardedRequestShape` | frontend/app/api/upload/route.ts:19-28 | the request goes to `{base}/upload` and has exactly one part, `file`, with the inbound content and the forwarded filename |
| `Relay.Classify` | frontend/app/api/upload/route.ts:30-58 | the outcome is a success variant iff the status is 2xx and a JSON variant iff the content type contains `application/json`; a failure keeps the status; the body read matches the variant; the read throws iff the chosen reader throws, and then with that reader's own error |
| `Relay.IsJson` | frontend/app/api/upload/route.ts:30-34 | true iff a content type is present and `application/json` occurs somewhere in it |
| `Relay.FailureReply` | frontend/app/api/upload/route.ts:36-61 | a failing status keeps its body and status, except a status above 599 or a null-body status (304), where the reply is the `catch` block's 502 with the constructor's message |
| `Relay.Normalize` | frontend/app/api/upload/route.ts:32-58 | the reply is 2xx iff the backend succeeded, and then exactly 200; a failure keeps its status, except 304 and statuses above 599, which become 502; the timing header is copied except on that 502 |
| `Relay.Relay` | frontend/app/api/upload/route.ts:30-61 | once the backend answered, the reply is 200, 502 or the backend's failing status; it is 200 iff the backend answered 2xx and its body was read |
| `Relay.RelayTable` | frontend/app/api/upload/route.ts:32-61 | the rows: failed JSON relayed with its status; failed text wrapped as `{detail: text or "Upstream error"}` with its status; a failing 304 or a status above 599 gives the 502 of the `catch`; succeeded JSON relayed with 200; succeeded text wrapped as `{transcript, summary: ""}` with 200; a throwing read gives the 502 carrying the reader's own error |
| `Relay.ReplyHeaders` | frontend/app/api/upload/route.ts:31-56 | the JSON content type is always set; `x-process-time-ms` is set iff the backend sent a non-empty value, and carries it unchanged; no other header |
| `Relay.ProcessTimePassedThrough` | frontend/app/api/upload/route.ts:31-61 | for the whole handler: the timing header is present iff the backend answered with a status other than 304 and at most 599, its body was read, and it sent a non-empty timing value |
| `Relay.ProxyFailure` | frontend/app/api/upload/route.ts:59-61 | status 502 with a non-empty detail: the thrown message when it has one |
| `Relay.ThrownIsBadGateway` | frontend/app/api/upload/route.ts:12-61 | a throw while parsing the form, reaching the backend, or in the JSON or text reader chosen for its body gives 502 `{detail: that throw's message or "Proxy failed"}` |
| `Relay.SuccessIffBackendSucceeded` | frontend/app/api/upload/route.ts:32-58 | the reply is 2xx iff a file was forwarded and the backend answered 2xx with a readable body; a 2xx reply is always exactly 200 |
| `Relay.FailureStatusPreserved` | frontend/app/api/upload/route.ts:36-41 | a failing backend's status reaches the browser unchanged, except 304 and statuses above 599, which become 502 |
| `Relay.FailureDetailNeverEmpty` | frontend/app/api/upload/route.ts:14-61 | every non-2xx reply is either the backend's own JSON or a `{detail}` the relay built whose text is never empty |
| `Capture.MicErrorText` | frontend/components/Recorder.tsx:40-42 | the rejection's non-empty message, else `Microphone access denied`; never empty |
| `Capture.UploadErrorText` | frontend/components/Recorder.tsx:63-64 | the server's `detail`, else the error's message, else `Upload failed`; never empty |
| `Capture.Recorder.constructor` | frontend/components/Recorder.tsx:11-16 | not recording, not loading, no result, no error, no chunks, no recorder |
| `Capture.Recorder.View` | frontend/components/Recorder.tsx:75-79 | the control reads Stop iff recording, Record otherwise, and is disabled iff loading |
| `Capture.Recorder.StartRecording` | frontend/components/Recorder.tsx:18-43 | result and error are cleared; when granted: a fresh recorder over the stream is started, the chunk list is emptied, recording is on; when denied: the error is the rejection's text and recording, chunks and recorder are as before |
| `Capture.Recorder.OnDataAvailable` | frontend/components/Recorder.tsx:27-31 | a chunk with data is appended at the end; an empty one is dropped; nothing else changes |
| `Capture.Recorder.StopRecording` | frontend/components/Recorder.tsx:45-49 | recording is off; with a recorder, the recorder is inactive and every track of its stream is ended; the recorder is kept |
| `Capture.Recorder.OnStop` | frontend/components/Recorder.tsx:33-36 | the posted blob is every kept chunk concatenated in order, typed `audio/webm`, sent as `file` named `audio.webm` to `{apiBase}/upload`; loading is on and the error cleared |
| `Capture.Recorder.BeginUpload` | frontend/components/Recorder.tsx:53-61 | loading is on, the error is cleared, and the request is the blob as `file` named `audio.webm` |
| `Capture.Recorder.FinishUpload` | frontend/components/Recorder.tsx:62-67 | loading is off on every path; on success the result is the response data; on failure the error is the failure's text and the result is untouched |
| `Capture.Recorder.Press` | frontend/components/Recorder.tsx:75-79 | a click while loading changes nothing: not the component, not its recorder, not the tracks; otherwise it stops a recording (recorder inactive, tracks ended) or starts one, leaving the previous recorder and its tracks untouched; a refused start keeps the chunks and the recorder |
| `Capture.Concat` | frontend/components/Recorder.tsx:34 | the combined blob is as long as the chunks together and ends with the last chunk |
| `Capture.ConcatPlacesChunk` | frontend/components/Recorder.tsx:34 | in the combined blob, chunk `i` sits right after the chunks before it, and the blob's size is the sum of the chunk sizes |
| `Capture.RecordStopAndShow` | frontend/components/__tests__/Recorder.test.tsx:124-136 | record, stop, a one-chunk recording and a backend answering "mock transcript"/"mock summary": both strings are shown, no error, loading is off, the track is released |
| `Backend.ContainsAny` | backend/main.py:63-65 | `any(ext in name ...)`: true iff some needle occurs in the string |
| `Backend.IsSupportedFilename` | backend/main.py:63-66 | a filename is accepted iff one of `.webm .wav .mp3 .m4a .ogg .mp4 .mov` occurs somewhere in its lower-cased form |
| `Backend.ExtensionAnywhereAccepted` | backend/main.py:63-65 | a name with an extension anywhere (prefix and suffix arbitrary) is accepted |
| `Backend.SupportIgnoresCase` | backend/main.py:63 | lower-casing a filename first never changes the verdict |
| `Backend.TextNoteRefused` | backend/tests/test_api_errors.py:24-31 | `note.txt` is refused |
| `Backend.Upload` | backend/main.py:60-117 | the file is read iff its name is supported and the temporary file could be created; the speech-to-text call is made iff the file was read and saved and the mode is real; a summary is asked for iff the reply is accepted in real mode; an accepted reply needs a saved temporary file; a refusal is 400 for an unsupported name and 500 otherwise |
| `Backend.MockTranscript` | backend/main.py:79 | the demo transcript starts with `[mock] Received `, ends with the filename and a full stop, and has room for at least one digit between |
| `Backend.Summarize` | backend/main.py:98-113 | the transcript is kept; there is a summary iff the completion returned content, and then it is that content stripped; otherwise there is an error that starts with `summary_failed: ` |
| `Backend.UnsupportedRefusedUnread` | backend/main.py:63-74 | an unsupported name gets 400 "Unsupported file format" and nothing is saved, read, transcribed or summarised; a supported one is read unless creating the temporary file failed |
| `Backend.TempFileFailureIsServerError` | backend/main.py:68-74 | for a supported name, a temporary file that could not be created or written gives 500 with that failure as its cause, in either mode, and no service is called |
| `Backend.MockModeReply` | backend/main.py:76-80 | mock mode, temporary file saved: the transcript names the byte count and the filename, the summary is the fixed demo text, no summary error, no service called |
| `Backend.MockTranscriptRoundTrip` | backend/main.py:79 | the byte count and the filename can be read back exactly from the mock transcript |
| `Backend.TranscriptionFailureIsServerError` | backend/main.py:84-117 | a raising transcription gives 500 and no summary attempt |
| `Backend.BlankTranscriptIsServerError` | backend/main.py:95-96 | a transcript made only of white space gives 500 and no summary attempt |
| `Backend.SummaryFailureDegrades` | backend/main.py:98-115 | a raising summary keeps the transcript unchanged, gives no summary and `summary_error = "summary_failed: " + message` |
| `Backend.SummarySuccess` | backend/main.py:104-115 | a returned summary is stripped and there is no summary error |
| `Backend.AcceptedReplyShape` | backend/main.py:76-115 | every accepted reply has a transcript with non-blank text and exactly one of summary and summary error; the error starts with `summary_failed: ` |
| `Backend.ServerErrorCauses` | backend/main.py:68-117 | for a supported name, a 500 happens iff the temporary file could not be saved (either mode), or in real mode the transcription raised or came back blank; no refusal ever follows a summary attempt |
| `Backend.EnvFlag` | backend/main.py:12 | a flag is on iff its value, or the default when unset, is `true` in some letter case |
| `Backend.UseMock` | backend/main.py:12 | on when the variable is unset; when set, on iff its value is `true` in some letter case |
| `Backend.AllowAllCors` | backend/main.py:32 | off when the variable is unset; when set, on iff its value is `true` in some letter case |
| `Backend.FlagIgnoresCase` | backend/main.py:12 | a flag reads the same after its value is lower-cased |
| `Backend.FlagSpellings` | backend/main.py:12-32 | `TRUE`, `True` and unset switch mock mode on; `false`, `1`, empty and ` true` do not; `TrUe` allows all origins, `yes` and unset do not |
| `Backend.CorsOrigins` | backend/main.py:34-39 | `*` is allowed iff all origins are allowed, and then alone; otherwise the two local front-end origins |
| `Text.Lower` | backend/main.py:63 | same length; no upper-case ASCII letter is left; every other character is kept and each letter becomes its lower-case partner |
| `Text.TrimStart` | backend/main.py:95 | a suffix of the input; everything cut from the front is white space; the result does not start with white space |
| `Text.TrimEnd` | backend/main.py:95 | a prefix of the input; everything cut from the back is white space; the result does not end with white space |
| `Text.Strip` | backend/main.py:95 | never longer than the input, and a non-empty result neither starts nor ends with white space |
| `Text.DecimalString` | backend/main.py:79 | a non-empty run of digits with no leading zero |
| `Text.DecimalRoundTrip` | backend/main.py:79 | the decimal rendering of a byte count reads back as that count |
| `Text.StripEmptyIffAllSpace` | backend/main.py:95 | `strip()` gives the empty string iff every character is white space |
| `Text.StripIsInfix` | backend/main.py:110 | `strip()` is a contiguous piece of the input, and what it removes on both sides is white space |

## Left out

- Network, device and framework calls are not modelled: `fetch`, `axios`, `getUserMedia`, `MediaRecorder` internals, FastAPI request parsing and the OpenAI client. Their results are parameters or separate events.
- Async interleaving is not modelled. Each handler runs as one step, and the environment decides the order of events. The component has no stale-response guard, and none is claimed.
- The backend's temporary file is modelled only by whether creating it and writing it succeeded, a parameter; which filenames make creation fail (a missing directory, a NUL byte, an over-long name) is left to the file system, and deleting the file afterwards is I/O.
- The dotenv loading, the CORS middleware wiring, the `/health` endpoint and the startup `RuntimeError` are not modelled. They are framework plumbing and configuration, and `get_openai_client` raising is left out for the same reason.
- Backend 500 replies: the detail text is not modelled. It is Starlette's rendering of an inner `HTTPException`, so only the status and the check that fired are kept.
- Relay: `Upstream` statuses are 200..999. Node's `fetch` does not deliver the informational statuses below 200, and HTTP statuses have three digits. JSON numbers are integers only.
- Relay.NullBodyStatusError: the message of the error a 304 reply throws is taken in Node's wording (`Response constructor: Invalid response status code 304`); another runtime may word it differently. The same holds for `Relay.StatusRangeError`, thrown for a status above 599.
- Relay: the reply headers are only the ones the handler controls (`content-type` set by `NextResponse.json`, and the processing time).
- Capture: a `MediaRecorder` constructor or `start()` that throws is not modelled. It is folded into a denied start, so the recorder reference and the chunk reset made before that throw are not captured.
- Capture: rendering beyond the Record/Stop control is not modelled (spinner, error line, transcript and summary paragraphs). It is presentation.
- Capture: `response.data.detail` is modelled as a string. A non-string `detail` (such as a validation error list) is out of scope.
- Backend: `file.filename` is taken to be a string. A missing filename never reaches the handler as an `UploadFile`.
- `Text.Lower`: only ASCII letters are lowered, not all of Python's Unicode case mapping. No other character lowers to a letter of `true` or of the seven extensions, so the flag and extension verdicts are the same.
