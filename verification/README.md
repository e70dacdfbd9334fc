# Chat page session state, verified in Dafny

This project models the interactive core of the `ChatbotInterface` page of a
document-chat front end (`src/app/page.js`). The page has five pieces of state:
- the message log `messages`
- the draft `input`
- the pending flag `isLoading`
- the selected `file`
- the `uploadedFileUrl` returned by the storage service

Three handlers change that state:
- `handleFileChange` records the picked file and uploads it.
- `handleInputChange` sets the draft.
- `onSubmit` appends the draft to the log as a user message, asks the chat
  service, and appends the assistant's reply.

The two network handlers are asynchronous. Each one is modelled as two events:
- a dispatch step: the code up to the `await`, which yields the request it issues.
- a completion step: it receives an abstract outcome (`UploadOk(fileUrl)` /
  `UploadFailed`, `ChatOk(message)` / `ChatFailed`).

Clock readings (`Date.now()`) are parameters.

Files:
- `js_text.dfy`: `String.prototype.trim` and string truthiness. `Truthy` is JavaScript's truthiness (ECMAScript ToBoolean) of a string that may be null or undefined, as tested at src/app/page.js:48, 73 and 186; it is a definition, with no contract of its own.
- `chat_session.dfy`: the session as a record, with one pure specification function per handler step.
- `chat_protocol.dfy`: runs of events. A completion needs an outstanding request. The disabled text
  field and Send button are a separate condition (the UI guard). This file holds the invariants that
  runs allowed by the page keep.
- `page.dfy`: the component as a class whose fields are the five state variables. Its methods perform
  the handlers' updates and are proved equal to the protocol's `Step`.

Behaviour of the code the model keeps, which a reader might not expect:
- `onSubmit` does not check `isLoading`. Only the disabled Send button prevents a second request
  (`SubmitHandlerIgnoresPending`, `GuardIsNeeded`).
- The draft is not cleared when a message is sent. It is cleared in the `finally` clause, when the
  request completes (`Submit` keeps `input`; `ChatDone` clears it).
- A successful upload does not need a `fileUrl` field. An OK response without one overwrites the
  stored URL with `undefined` (`UploadOk(None)`).
- The chat request carries only the draft. The URL-aware query parameters are built and then
  discarded (`RequestIgnoresUploadedUrl`).
- Message ids are clock readings and are not unique (`IdsMayCollide`).

## Model

| member | source | states |
|---|---|---|
| JsText.TrimStart | src/app/page.js:48 | the result is the suffix of the input after its leading ECMAScript whitespace, and starts with a non-whitespace character or is empty |
| JsText.TrimEnd | src/app/page.js:48 | the result is the prefix of the input before its trailing whitespace, and ends with a non-whitespace character or is empty |
| JsText.Trim | src/app/page.js:48 | `input.trim()` is a slice of the input with only whitespace outside it, with non-whitespace ends; it is empty exactly when the input is all whitespace |
| JsText.IsJsWhitespace | src/app/page.js:48 | the characters `trim` strips are exactly the 25 code points of ECMAScript WhiteSpace and LineTerminator, listed one by one |
| JsText.IsBlank | src/app/page.js:48 | `!s.trim()` (also in the Send button's condition at line 186) holds exactly when every character of `s` is whitespace, the empty string included |
| ChatSession.HandlerTestIsAccepted | src/app/page.js:48 | the handler's test `!input.trim() && !uploadedFileUrl` rejects a submit exactly when `SubmitAccepted` (the draft has a non-whitespace character, or the uploaded file URL is truthy) fails |
| ChatSession.SendEnabled | src/app/page.js:186 | the Send button is enabled exactly when nothing is pending and it is not the case that the draft trims to empty and the URL is falsy |
| ChatSession.InputEnabled | src/app/page.js:184 | whenever the text field is disabled (while a request is pending), the Send button is disabled too |
| ChatSession.FileChange | src/app/page.js:22-34 | an absent or empty selection changes nothing and issues nothing; otherwise the first file is recorded and one upload of that file is issued; log, draft, pending flag and URL unchanged |
| ChatSession.UploadDone | src/app/page.js:35-41 | an OK upload sets the URL to the returned `fileUrl` (absent field gives none); a failed one changes nothing; log, draft, flag and file never change |
| ChatSession.InputChange | src/app/page.js:44 | the draft becomes the typed value and nothing else changes |
| ChatSession.Submit | src/app/page.js:46-62 | a blank draft with no truthy URL is a no-op with no request; otherwise exactly one user message holding the draft verbatim is appended after the unchanged log, the pending flag is raised, and one request whose query is the draft is issued; draft, file and URL unchanged |
| ChatSession.ReplyContent | src/app/page.js:73 | the reply text is the returned message when it is a non-empty string, else "No response from AI"; never empty |
| ChatSession.ChatDone | src/app/page.js:62-82 | success appends exactly one assistant message (id `now + 1`, reply text) after the unchanged log; failure appends nothing; both clear the draft and lower the pending flag; file and URL unchanged |
| ChatSession.BlankSubmitIsNoOp | src/app/page.js:48 | an all-whitespace draft with no truthy URL leaves the session unchanged and issues no request |
| ChatSession.RequestIgnoresUploadedUrl | src/app/page.js:55-62 | two accepted submits with the same draft issue the same request `query = draft`, whatever their uploaded URLs |
| ChatSession.SubmitHandlerIgnoresPending | src/app/page.js:46-52 | the handler issues a request while one is pending; only the disabled button forbids it |
| ChatSession.UrlAloneAcceptsBlankDraft | src/app/page.js:48-51 | with a truthy URL an all-whitespace draft is accepted and recorded verbatim |
| ChatProtocol.Step | src/app/page.js:22-82 | an event never removes or changes a logged message, and moves each in-flight count by at most one |
| ChatProtocol.Run | src/app/page.js:22-82 | after any feasible run the old log is a prefix of the new one |
| ChatProtocol.StepPreservesInv | src/app/page.js:184-186 | each event the page allows keeps the invariant: the pending flag is up exactly when one chat request is in flight, the last message is then a user message, and every assistant message follows a user message |
| ChatProtocol.RunPreservesInv | src/app/page.js:184-186 | every run the page allows keeps that invariant |
| ChatProtocol.AtMostOneChatInFlight | src/app/page.js:184-186 | from a fresh page, on every allowed run, at most one chat request is in flight, the flag tracks it, and replies follow prompts |
| ChatProtocol.GuardIsNeeded | src/app/page.js:46-52 | the page disallows a second send while one is pending; the handler alone would accept it, put two chat requests in flight and break the invariant |
| ChatProtocol.InFlightLogFrozen | src/app/page.js:184-186 | while a chat request is in flight no allowed event other than its completion changes the log or the pending flag |
| ChatProtocol.RoundTrip | src/app/page.js:46-82 | an allowed send followed by other allowed events and the completion leaves the log plus the prompt, then the reply on success or nothing on failure, with the draft empty and nothing pending |
| ChatProtocol.NoUploadKeepsUrl | src/app/page.js:35-41 | with no successful upload in a run, the URL keeps its value |
| ChatProtocol.LastUploadWins | src/app/page.js:37 | after a run, the URL is the `fileUrl` of its last successful upload |
| ChatProtocol.HelloScenario | src/app/page.js:44-82 | typing "Hello" and sending issues `query=Hello`; the reply "Hi there" gives the log [user "Hello", assistant "Hi there"] |
| ChatProtocol.UploadScenario | src/app/page.js:22-41 | an upload returning `https://store/abc` stores it; a later failed upload of another file records that file and keeps the URL |
| ChatProtocol.IdsMayCollide | src/app/page.js:50-71 | a reply received at time 100 and a prompt sent at 101 both get id 101 |
| Page.ChatbotInterface.SendButtonEnabled | src/app/page.js:186 | the Send button is enabled exactly when nothing is pending and the draft has a non-whitespace character or the URL is truthy |
| Page.ChatbotInterface.constructor | src/app/page.js:11-15 | a fresh page: empty log and draft, not loading, no file, no URL, nothing in flight |
| Page.ChatbotInterface.HandleFileChange | src/app/page.js:22-34 | the object's new state is `Step` of a file pick and the returned request is the one `FileChange` issues |
| Page.ChatbotInterface.CompleteUpload | src/app/page.js:35-41 | the object's new state is `Step` of that upload's completion |
| Page.ChatbotInterface.HandleInputChange | src/app/page.js:44 | the object's new state is `Step` of typing the value |
| Page.ChatbotInterface.OnSubmit | src/app/page.js:46-62 | the object's new state is `Step` of a send, and the returned request is the one `Submit` issues |
| Page.ChatbotInterface.CompleteChat | src/app/page.js:62-82 | the object's new state is `Step` of that chat request's completion |

## Left out

- Rendering, styling, the thinking indicator and the scroll area (src/app/page.js:85-195): presentation only. The only parts kept are the `disabled` conditions of the text field (184) and the Send button (186).
- `fetch`, `FormData`, `res.json()`, `encodeURIComponent` and the endpoint addresses: the network is reduced to request records and abstract outcomes. A JSON body that is `null`, which makes `data.message` throw, is one of the outcomes counted as `ChatFailed`.
- `console.log` / `console.error` output, including the upload error text `data.error || "Upload failed"`: it is only logged.
- The `URLSearchParams` value built at src/app/page.js:55-59: it is never read, so it has no effect on the state or the request.
- `triggerFileUpload` and `fileInputRef`: these only click a hidden input element. The `.pdf` picker filter is not modelled either.
- `Date.now()`: clock readings are parameters. Nothing is assumed about their order or uniqueness.
- React rendering, batching and stale closures: each handler step is one atomic, serialized event. Real interleaving of an upload completion with a chat completion is reduced to an arbitrary order of such events.
- JavaScript strings are UTF-16 code units; the model uses Unicode scalar values. So it leaves out a draft holding a lone surrogate. There `encodeURIComponent` (src/app/page.js:62) throws synchronously inside the `try`, so no chat request is issued. The user message stays in the log, and the `finally` clears the draft and lowers the pending flag at once. Scalar-value strings cannot hold such a draft.
- The JSON fields `data.message` and `data.fileUrl` are taken to be strings or absent. In the code, a truthy non-string `message` such as `42` would become the reply content (src/app/page.js:73). A non-string `fileUrl` would be stored (src/app/page.js:37) and then tested for truthiness at src/app/page.js:48, where `0` counts as falsy.
- A null file list is modelled as an absent one (`None`), which the handler treats the same way as an empty one.
