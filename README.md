# People Team AI Assistant: conversation buffer, turn and transcript

A verified model of the logic underneath the Streamlit chat front end in
`app.py`: the per-session list of `{role, content, timestamp}` records, one
turn of the chat loop (record the question, check the configuration, post
the whole history to the chat-completion endpoint, record the answer or
swallow the exception), the completion URL, the defaulting chain that reads
the answer out of the reply, and the plain-text transcript export.

Modules, one per component:

- `Wrappers`: `Option` (an unset variable, an absent JSON key) and `Result` (a step that raised).
- `Messages`: the `Message` record; the role is a string, as in the source, and the timestamp an
  optional opaque string.
- `Endpoint`: truthiness of an environment value (`IsSet`), `rstrip("/")`, the completions URL and
  the `Request` record (URL, `Authorization: Bearer <key>`, `Content-Type: application/json`, the
  history, `stream` and the three `include_*_info` flags, all `false`).
- `Completion`: the reply shape (`choices` → first choice → `message` → `content`, each key optional),
  the HTTP reply (transport failure, or status and a body that did or did not decode), and the
  reading of the reply.
- `Transcripts`: paragraph formatting, `"\n\n".join`, and the lemmas that place each record's
  paragraph in the text. `ExampleTranscript` works one answered turn through these lemmas.
- `Chat`: class `Session` with the `messages` field, its constructor, `Clear`, `Append`, `TextExport`
  and the turn `Submit`. The remote call is the parameter `post: Request -> HttpReply`, so the reply
  is a function of the request actually built. `Submit` returns the request it sent, which makes
  "no request on a configuration error" and "the request carries the whole history" statable.
  `ExampleSession` works through an answered turn, a failed turn (HTTP 500) and a turn without a base URL.

Inputs the source reads from its environment are parameters: the prompt (`""` stands for "nothing
submitted", which the walrus test at line 57 treats as no turn), the two environment values as
`Option<string>`, the two timestamps as opaque strings, and the endpoint as `post`.

Behaviour of `app.py` worth noting:

- An empty `choices` list raises `IndexError`: the default `[{}]` only applies when the key is
  absent. The exception is caught and no answer is recorded (`ExtractAnswer`, `ReadReply`, `Submit`).
- No system message is sent, and no `temperature`, `top_p` or `max_tokens`. The payload holds exactly
  the history plus `stream` and the three `include_*_info` flags.
- The buffer starts empty and `Clear` empties it.

## Model

| member | source | states |
|---|---|---|
| `Endpoint.IsSet` | app.py:66-68 | an environment value counts as configured exactly when it is present and not the empty string (`not v` is false) |
| `Endpoint.BuildRequest` | app.py:72-84 | the request goes to the completions URL, carries `Bearer ` followed by exactly the key, `application/json`, the given history unchanged, and `stream` and the three `include_*_info` flags all false |
| `Endpoint.StripTrailingSlashes` | app.py:72 | the result is a prefix of the input, everything after it is `/`, and it does not itself end in `/` |
| `Endpoint.StripTrailingSlashesUnique` | app.py:72 | those three properties determine the result: any string meeting them is the stripped base |
| `Endpoint.StripTrailingSlashesIdempotent` | app.py:72 | stripping an already stripped base changes nothing |
| `Endpoint.CompletionsUrl` | app.py:72 | the URL ends with `/api/v1/chat/completions`; the part before it is a prefix of the base, never ends in `/`, and the base holds only `/` after it |
| `Endpoint.CompletionsUrlIgnoresTrailingSlash` | app.py:72 | a base with an extra trailing `/` gives the same URL |
| `Completion.ExtractAnswer` | app.py:89 | `choices` absent, first choice without `message`, or message without `content` each give `"No answer returned."`; otherwise the first choice's content; an empty `choices` list raises (error exactly then) |
| `Completion.ExtractAnswerReadsFirstChoice` | app.py:89 | choices after the first never affect the answer |
| `Completion.IsErrorStatus` | app.py:87 | `raise_for_status` raises exactly for a 4xx (client) or 5xx (server) status |
| `Completion.ReadReply` | app.py:86-89 | an answer exactly when the transport succeeded, the status is outside 400-599, the body decoded and `choices` is not `[]`; each failure is reported with its own cause (transport reason, status, bad JSON, no first choice) |
| `Transcripts.Paragraph` | app.py:36-37 | role `"user"` renders as `You (<ts>): <content>`, any other role as `People Team AI (<ts>): <content>`, `<ts>` being `unknown` when the record has no timestamp |
| `Transcripts.ParagraphSpeaker` | app.py:36-37 | a paragraph starts with `You (` exactly when the record's role is `"user"`, and with `People Team AI (` exactly when it is not |
| `Transcripts.JoinEnds` | app.py:35 | `sep.join` of no parts is empty; otherwise the text starts with the first part and ends with the last |
| `Transcripts.Paragraphs` | app.py:35-38 | the comprehension gives one paragraph per record, the paragraph of record `i` at position `i` |
| `Transcripts.TranscriptHead` | app.py:35-39 | a non-empty buffer's transcript starts with its first record's paragraph, and is that paragraph alone for one record |
| `Transcripts.JoinConcat` | app.py:35 | joining two non-empty lists of paragraphs puts exactly one separator between them |
| `Transcripts.Transcript` | app.py:35-39 | the transcript is empty exactly when the buffer is |
| `Transcripts.TranscriptConcat` | app.py:35-39 | the transcript of two non-empty buffers laid end to end is their transcripts joined by one `"\n\n"` |
| `Transcripts.TranscriptAppend` | app.py:35-39 | appending a record adds its paragraph at the end, after `"\n\n"` unless the buffer was empty |
| `Transcripts.TranscriptParagraphAt` | app.py:35-39 | record `i`'s paragraph stands at its offset in buffer order, preceded by `"\n\n"` unless it is the first; the last paragraph ends the text (no leading or trailing separator) |
| `Chat.Session.constructor` | app.py:17-18 | a session starts with an empty buffer |
| `Chat.Session.Clear` | app.py:22-23 | the buffer is empty afterwards whatever it held, so clearing twice is clearing once |
| `Chat.Session.Append` | app.py:59 | the new buffer is the old one with the record added at the end; earlier records are unchanged and keep their order |
| `Chat.Session.TextExport` | app.py:35-42 | the exported text of the session is empty exactly when its buffer is |
| `Chat.Session.Submit` | app.py:57-103 | no prompt: nothing changes; otherwise the question `{user, prompt, askedAt}` is appended first; base URL or key unset or empty gives a configuration error, no request and a buffer one record longer; otherwise the request built from the completions URL, the bearer key and the whole history including the question is posted; a raised step leaves the buffer one record longer, and a read answer appends exactly `{assistant, answer, answeredAt}` (two records); if every record of the buffer was a question or an answer and every answer directly followed a question, that still holds |

## Left out

- Streamlit presentation: page setup, title, sidebar buttons, success and error toasts, chat bubbles,
  spinner and the loop that redraws past messages (app.py:11-14, 20-21, 24-34, 40-54, 60-64, 92-94). The
  export buttons appear only when the buffer is non-empty (app.py:26); that is presentation too.
- The HTTP library: `requests.post`, `raise_for_status` and `res.json()` are replaced by the `post`
  parameter and its `HttpReply`. `raise_for_status` is taken to raise for statuses 400-599, which is
  how that library behaves; the library itself is not part of this model.
- Environment loading (`dotenv.load_dotenv`, `os.getenv`) and the clock (`datetime.now`): their
  values are parameters. Export file names (`chat_<YYYYMMDD_HHMMSS>`) depend only on the clock and
  are not modelled.
- The JSON export (`json.dumps`, app.py:29) is a library serialiser. It is given the buffer unchanged.
- The message of a caught exception shown to the user (app.py:103) is kept only as the `Failure` value.
- `ExtractAnswer`: bodies that are not JSON objects, and `choices`, `message` or `content` values of
  other JSON types (`null`, numbers, strings where a list or object is expected), are not modelled.
  In the source these either raise (and the turn records nothing) or, for a non-string `content`,
  pass through as the answer.
- `Transcripts.Paragraph`: contents and timestamps are already strings here, so the formatting that
  Python's f-string applies to non-string values is not modelled.
