# GPT-BOT chat core, modelled in Dafny

This project models the small sequential core of the GPT-BOT chat client and
its `generate_csv` agent tool.

- **`MainContainer`** is the main chat component. Its conversation store is a
  list of message records `{id, text, sender, isLoading}`, plus a global
  `isLoading` flag and the `inputText` field. A send appends the user message
  and then, once the response has a body, a placeholder bot message. Each
  streamed chunk replaces the placeholder's text with the whole reply so far.
  Any failure appends the fixed error message, and the `finally` step clears
  every loading flag. The same file holds three more pieces:
  - the identity effect, which reuses the stored `user_id`/`session_id` or
    regenerates both;
  - the link handler, which turns `.csv` links into downloads named after the
    last path segment;
  - the send-button guard.
- **`ChatInterface`** is the mock chat panel: a guarded append of a
  (user, canned response) pair that also hides the intro panel and clears the
  input.
- **`Valuestream`** is the decision logic of `generate_csv`. It cuts out the
  slice from the first `[` through the last `]` and parses it, falling back
  once to the whole text. It then chooses between a table, the
  "No valid data provided" notice and the two error replies.
- **`Text`** holds JavaScript's `trim` (used only for its truthiness) and
  `endsWith`. **`Wrappers`** holds `Option` and `Result`.

How the outside world is represented:
- The network is a given `Response` value: `fetch` rejects, there is no body,
  or a body yields a sequence of already-decoded chunk strings and then
  completes or has a read rejected.
- Fresh `uuidv4` tokens are method parameters.
- `localStorage` is a `LocalStorage` object over a `map<string, string>`.
- `json.loads` is a total function parameter `string -> Option<Json>`, where
  `None` stands for a `JSONDecodeError`.
- React state updates run one after another, in program order.

Points where the code does something other than its own comments or a
reader expects:
- The comment on the download name (MainContainer.jsx:144) reads "Extract
  filename or use default". Every `href` that takes the `.csv` branch has a
  non-empty last segment, so the `'file.csv'` default is never used
  (`CsvFilenameIsLastSegment`).
- The comment at MainContainer.jsx:134 reads "Check if the link is a file
  download (e.g., ends with .csv)". The test is on the whole `href`, so
  `/x.csv?download=1` is navigated to, not downloaded.
- An error always appends a new bot message instead of replacing the
  placeholder. When a read fails after the placeholder exists, two bot
  messages share one id (`ErrorAfterPlaceholderDuplicatesId`).
- `response.ok` is never checked. A non-2xx response that has a body is
  streamed as the bot reply like any other (`Body`).
- The guard trims the input, but the stored and sent text is the untrimmed
  input.
- Every chunk is applied, including one that decodes to `""` (a partial
  multi-byte sequence): a `Uint8Array` value is always truthy. Such a chunk
  still switches the placeholder's loader off.

## Model

| member | source | states |
|---|---|---|
| `Text.TrimStart` | Frontend/src/Components/MainContainer/MainContainer.jsx:42 | the result is the suffix of the input after a prefix made only of whitespace, and it does not start with whitespace |
| `Text.TrimEnd` | Frontend/src/Components/MainContainer/MainContainer.jsx:42 | the result is the prefix of the input before a suffix made only of whitespace, and it does not end with whitespace |
| `Text.Trim` | Frontend/src/Components/MainContainer/MainContainer.jsx:42 | `s.trim()` is a contiguous substring of `s` with only whitespace before and after it in `s`, and neither of its ends is whitespace |
| `Text.EndsWith` | Frontend/src/Components/MainContainer/MainContainer.jsx:135 | `s.endsWith(suffix)`, the definition; its use is characterised by `LinkClick` and `CsvFilenameIsLastSegment` |
| `Text.TrimEmptyIffBlank` | Frontend/src/Components/MainContainer/MainContainer.jsx:42 | `s.trim()` is the empty, falsy string exactly when every character of `s` is whitespace (both directions) |
| `MainContainer.Concat` | Frontend/src/Components/MainContainer/MainContainer.jsx:81-87 | `botReply` after the chunks so far (`botReply += chunk`): empty before any chunk, starting with the first chunk and ending with the latest; `ReplyGrows` shows it only grows |
| `MainContainer.WithReply` | Frontend/src/Components/MainContainer/MainContainer.jsx:88-94 | the chunk updater keeps the list length; every message with the placeholder's id gets the whole cumulative reply as its text (replace, not append) and `isLoading = false`, keeping its id and sender; every other message is unchanged |
| `MainContainer.WithReplyOnPlaceholder` | Frontend/src/Components/MainContainer/MainContainer.jsx:88-94 | when no older message shares the placeholder's id, a chunk update changes only the last message, the placeholder |
| `MainContainer.ReplyGrows` | Frontend/src/Components/MainContainer/MainContainer.jsx:81-87 | the cumulative reply after chunk i is a prefix of the reply after any later chunk j, so the bot text only grows |
| `MainContainer.ClearBotLoading` | Frontend/src/Components/MainContainer/MainContainer.jsx:110-116 | the `finally` updater keeps the length and every id, text and sender; afterwards no bot message is loading, and a user message's flag is untouched |
| `MainContainer.Appended` | Frontend/src/Components/MainContainer/MainContainer.jsx:43-116 | what one send appends: the user message with id n + 1 and the untrimmed text, then one or two bot messages with id n + 2, none loading; with a body the first is the concatenated reply; after a rejected fetch, a missing body or a rejected read the last is the fixed error text |
| `MainContainer.SendSettles` | Frontend/src/Components/MainContainer/MainContainer.jsx:99-116 | after the catch step, the `finally` step turns the store into the old store plus exactly the messages the send appends: user message, then the reply or the error message, or both |
| `MainContainer.PlaceholderIsFresh` | Frontend/src/Components/MainContainer/MainContainer.jsx:68-75 | in a settled store plus the new user message, no message has the placeholder's id (user id + 1) or is loading |
| `MainContainer.AppendedSettled` | Frontend/src/Components/MainContainer/MainContainer.jsx:43-116 | a completed send keeps every id within 1..length and leaves no message loading, so the next send's ids are fresh again |
| `MainContainer.ErrorAfterPlaceholderDuplicatesId` | Frontend/src/Components/MainContainer/MainContainer.jsx:101-106 | a read failure after the placeholder appends the fixed error text with id user id + 1, the placeholder's own id |
| `MainContainer.StreamScenario` | Frontend/src/Components/MainContainer/MainContainer.jsx:41-119 | sending "Hello" with chunks "Hi" and " there" leaves the user message 1 and the bot message 2 with text "Hi there", no longer loading |
| `MainContainer.IdentityEffect` | Frontend/src/Components/MainContainer/MainContainer.jsx:19-27 | if either stored id is missing or empty, both fresh tokens are taken and both written; if both are present they are reused and storage is unchanged; either way storage then holds exactly the identity returned, and no other key changes |
| `MainContainer.IdentityIdempotent` | Frontend/src/Components/MainContainer/MainContainer.jsx:19-30 | given non-empty fresh tokens (uuidv4 yields those), a second initialisation with any tokens returns the same identity and leaves storage as the first left it |
| `MainContainer.LastSegment` | Frontend/src/Components/MainContainer/MainContainer.jsx:144 | `href.split('/').pop()` is the suffix of `href` that holds no '/' and is either all of `href` or preceded by '/' |
| `MainContainer.LinkClick` | Frontend/src/Components/MainContainer/MainContainer.jsx:133-155 | a click becomes a download exactly when `href` ends with ".csv"; otherwise default navigation happens |
| `MainContainer.CsvFilenameIsLastSegment` | Frontend/src/Components/MainContainer/MainContainer.jsx:135-144 | in the `.csv` branch the last segment is non-empty and ends with ".csv", so the suggested filename is that segment and the "file.csv" fallback is unreachable |
| `MainContainer.LinkScenarios` | Frontend/src/Components/MainContainer/MainContainer.jsx:135-144 | "/files/report.csv" downloads as "report.csv"; "/page.html" navigates |
| `MainContainer.SendDisabled` | Frontend/src/Components/MainContainer/MainContainer.jsx:232-235 | the send button is disabled exactly when a reply is pending or the input is all whitespace |
| `MainContainer.LocalStorage.constructor` | Frontend/src/Components/MainContainer/MainContainer.jsx:20-21 | the browser storage starts with the given items |
| `MainContainer.LocalStorage.GetItem` | Frontend/src/Components/MainContainer/MainContainer.jsx:20-21 | `getItem` returns the stored value, or nothing (null) when the key is absent |
| `MainContainer.LocalStorage.SetItem` | Frontend/src/Components/MainContainer/MainContainer.jsx:25-26 | `setItem` maps the key to the value and changes no other key |
| `MainContainer.Component.constructor` | Frontend/src/Components/MainContainer/MainContainer.jsx:12-16 | the component starts with no messages, empty input and ids, and no reply pending |
| `MainContainer.Component.SetInputText` | Frontend/src/Components/MainContainer/MainContainer.jsx:222 | the change handler sets `inputText` and nothing else |
| `MainContainer.Component.InitIdentity` | Frontend/src/Components/MainContainer/MainContainer.jsx:19-30 | the mount effect leaves `userId`, `sessionId` and the storage exactly as `IdentityEffect` of the old storage says |
| `MainContainer.Component.AddUserMessage` | Frontend/src/Components/MainContainer/MainContainer.jsx:42-51 | appends exactly one user message with id length + 1 and the untrimmed input as text, clears `inputText` and sets `isLoading` |
| `MainContainer.Component.ReadStream` | Frontend/src/Components/MainContainer/MainContainer.jsx:77-98 | the read loop ends with the placeholder holding the concatenation of all chunks (still loading only if there were none), the rest of the store unchanged, and reports whether a read was rejected; at every step at most the last message, a bot message, is loading |
| `MainContainer.Component.Request` | Frontend/src/Components/MainContainer/MainContainer.jsx:53-98 | a response with a body gets a placeholder with id user id + 1, text '' and `isLoading` true, which the read loop fills; the catch step runs (`failed`) exactly when `fetch` rejects, the body is missing or a read is rejected |
| `MainContainer.Component.Settle` | Frontend/src/Components/MainContainer/MainContainer.jsx:99-117 | on failure appends the fixed error message with id user id + 1; then `isLoading` is false and the store is the old store plus what the send appends, with nothing loading |
| `MainContainer.Component.HandleSendMessage` | Frontend/src/Components/MainContainer/MainContainer.jsx:41-119 | a whitespace-only input leaves messages, input and `isLoading` unchanged; any other send appends exactly `Appended` (user message, then reply and/or error), clears the input and ends with `isLoading` false; the at-rest invariant (ids within 1..length, nothing loading) is kept |
| `ChatInterface.ExchangeAppended` | Frontend/src/Components/ChatInterface/ChatInterface.jsx:15-17 | appending a (non-blank user text, canned response) pair keeps the transcript a sequence of such pairs |
| `ChatInterface.Component.constructor` | Frontend/src/Components/ChatInterface/ChatInterface.jsx:8-10 | the panel starts visible, with no messages and empty input |
| `ChatInterface.Component.HandleInputChange` | Frontend/src/Components/ChatInterface/ChatInterface.jsx:22-24 | the change handler sets `inputValue` and nothing else |
| `ChatInterface.Component.HandleSendMessage` | Frontend/src/Components/ChatInterface/ChatInterface.jsx:12-20 | a whitespace-only input changes nothing; any other send yields the old messages followed by `{input, user}` and `{"This is a response", response}` (untrimmed input, length + 2), clears the input and hides the intro panel; nothing makes the panel visible again, and the panel is visible exactly while there are no messages |
| `Valuestream.Find` | Backend/Valuestream.py:61 | `find` gives -1 exactly when the character is absent, otherwise the index of its first occurrence |
| `Valuestream.RFind` | Backend/Valuestream.py:62 | `rfind` gives -1 exactly when the character is absent, otherwise the index of its last occurrence |
| `Valuestream.Cleaned` | Backend/Valuestream.py:61-66 | a cleaned slice exists exactly when some '[' comes before some ']' in the input |
| `Valuestream.CleanedIsBracketSpan` | Backend/Valuestream.py:61-66 | the cleaned slice is a non-empty contiguous substring that is no longer than the input, starts at the first '[' with '[', and ends with the last ']' |
| `Valuestream.NoCleanedCases` | Backend/Valuestream.py:61-74 | the original string is parsed unchanged exactly when there is no '[', or no ']' (so `end_idx` is 0), or the last ']' precedes the first '[' |
| `Valuestream.Decode` | Backend/Valuestream.py:64-74 | `json.loads` is called once or twice, and the parsed data is what the last call returned |
| `Valuestream.DecodeFallback` | Backend/Valuestream.py:64-74 | the cleaned slice is parsed first if there is one; only when that fails is the original string parsed, exactly once, with no further trimming; a final failure means the original string failed to parse |
| `Valuestream.RowsError` | Backend/Valuestream.py:86-88 | `writerows` raises no error exactly when every row is an object whose fields are among the header's |
| `Valuestream.WriteTable` | Backend/Valuestream.py:84-91 | falsy data writes only the notice; a table exactly when the data is a non-empty array of objects whose fields lie within the first's, with that header and those rows; a truthy boolean or number raises TypeError (`len`), a truthy object KeyError (`[0]`), a truthy string or an array whose first item is not an object AttributeError (`.keys()`) |
| `Valuestream.GenerateCsv` | Backend/Valuestream.py:51-94 | the JSON-error outcome exactly when the last parse attempt fails; a file is saved exactly when the parse succeeds and writing the table raises nothing; `NoticeIffNoData`, `TableIffRowsFit` and `ParseErrorIffLastAttemptFails` state the cases in terms of the input |
| `Valuestream.NoticeIffNoData` | Backend/Valuestream.py:85-91 | exactly when the parsed data is empty or falsy, the file content is "No valid data provided" and no header is written |
| `Valuestream.TableIffRowsFit` | Backend/Valuestream.py:85-88 | a table is written exactly when the data is a non-empty array of objects whose fields all lie within the first object's fields; the header is those fields and the rows are the array |
| `Valuestream.ParseErrorIffLastAttemptFails` | Backend/Valuestream.py:67-74 | the JSON-error outcome happens exactly when the last parse attempt fails |
| `Valuestream.ToolReply` | Backend/Valuestream.py:94-117 | the tool returns the file path on success, a string beginning "Error parsing JSON data" on a parse failure, and one beginning "Error generating CSV: " on a failure while writing the table, for the outcomes modelled (not the I/O failures listed under Left out) |
| `Valuestream.ParseErrorReply` | Backend/Valuestream.py:106-113 | the parse-failure reply is exactly "Error parsing JSON data. Details saved to ./output/errors/json_error.log" on a POSIX host |

## Left out

- Rendering: JSX, Markdown rendering with GitHub Flavored Markdown, the `PulseLoader`, the empty-chat hint and `scrollIntoView`. These are presentational and library-driven.
- The message `time` field (`toLocaleTimeString`): it depends on the clock and locale and is only displayed.
- `HandleSendMessage`: only streams that end, by completing or by a rejected read, are modelled, because `Response` holds a finite chunk sequence. A stream that stalls keeps the `while (!done)` loop (MainContainer.jsx:83-98) waiting, so `finally` never runs. `isLoading` then stays true and the send control stays disabled, which the model cannot show.
- `fetch`, `response.body.getReader()` and the request body: these are network I/O. The network is the given `Response` value instead.
- `TextDecoder` streaming UTF-8 decoding: it is a foreign call, so chunks are given as decoded strings. The code never does a final flush call, so a multi-byte sequence cut off at the end of the stream is not part of the chunks.
- The download itself (`fetch(href)`, `response.blob()`, `URL.createObjectURL`, the temporary anchor), its failure `alert`, and every `console.error`. These are browser side effects. `LinkClick` returns the decision and the filename only.
- `ParseErrorReply`: the log path is the result `os.path.join` gives on a POSIX host, `./output/errors/json_error.log`. On Windows the separator before `json_error.log` would be `\`, and the model does not capture that.
- `LocalStorage`: it never fails. The `SecurityError` or `QuotaExceededError` that `getItem`/`setItem` can throw, which would end the identity effect before `setUserId` runs, is not modelled.
- `uuidv4`: a source of fresh tokens, passed in as parameters.
- Async interleaving and React batching, including the stale `messages.length` read when two sends overlap. The model runs each step in order. The disabled send button and textarea keep a second send from starting while a reply is pending.
- `handleKeyPress` (Enter without Shift calls the send handler) and `handleAttach` (an `alert`): UI event glue with no state of its own.
- In `generate_csv`: the debug and error-log file writes, `os.makedirs`, `os.path.abspath` (the absolute path is a parameter of `ToolReply`), and the CSV text `csv.DictWriter` produces. These are file I/O or library formatting. An I/O error inside the `try` body (Valuestream.py:51-94) would end in "Error generating CSV: ..."; the model does not produce one.
- `ToolReply`: a failure while writing `json_error.log` (Valuestream.py:102-110) happens inside the `except json.JSONDecodeError` handler. The sibling `except Exception` does not catch it, so it propagates out of the tool. The model, which has no I/O, always returns a string.
- `ToolReply`: the text after "Error generating CSV: " is `str(e)`, Python's message for the exception. It is a parameter (`describe`), not modelled.
- `Json`: numbers keep an integer value only, because only their truthiness matters here. Object field order is dropped (a `map`), so the header is a set of field names, not an ordered list.
- `json.loads` internals: it is an abstract total parser. Errors other than `JSONDecodeError` that it could raise (such as `RecursionError`) are not modelled.
- The agent, the OpenAI/Tavily tools, SQLite memory and storage, and the FastAPI streaming endpoint: these are foreign services.
- Sidebar, Navbar and App: presentational glue.
