/**
  The state of the chat page and what each event handler does to it, as pure
  functions on a record. The class in page.dfy performs the same updates field
  by field and is proved against these functions.

  The two asynchronous handlers are split at their `await`: a dispatch step
  (everything up to the network call, which yields the request it issues) and
  a completion step that receives an abstract outcome of that request.
*/
module ChatSession {
  import opened Wrappers
  import opened JsText

  datatype Role = User | Assistant

  /** One entry of the conversation. `id` is the clock reading taken when the
      entry was created; nothing makes it unique. */
  datatype Message = Message(id: int, role: Role, content: string)

  /** A file chosen in the file picker; only its name is shown by the page. */
  datatype FileRef = FileRef(name: string)

  /** `POST /upload` with the form field `file`. */
  datatype UploadRequest = UploadRequest(file: FileRef)

  /** `GET /chat?query=…`: the query is the only thing the request carries. */
  datatype ChatRequest = ChatRequest(query: string)

  /** How an upload ends: an OK response whose JSON body has a `fileUrl` field
      (None when the field is absent), or any failure (network error, body
      that is not JSON, non-OK status, or an OK response whose JSON body is
      `null`, where reading `data.fileUrl` throws and the catch keeps the URL). */
  datatype UploadOutcome = UploadOk(fileUrl: Option<string>) | UploadFailed

  /** How a chat request ends: an OK response whose JSON body has a `message`
      field (None when absent), or any failure (network error, non-OK status,
      body that is not JSON). */
  datatype ChatOutcome = ChatOk(message: Option<string>) | ChatFailed

  /** The five pieces of component state. */
  datatype Session = Session(
    messages: seq<Message>,
    input: string,
    isLoading: bool,
    file: Option<FileRef>,
    uploadedFileUrl: Option<string>)

  /** The state after a dispatch step, with the request it issued, if any. */
  datatype Dispatched<R> = Dispatched(session: Session, request: Option<R>)

  const InitialSession := Session([], "", false, None, None)

  const NoResponse := "No response from AI"

  function Last(s: seq<Message>): Message
    requires s != []
  {
    s[|s| - 1]
  }

  /** `s` is `t` with exactly `m` appended: all earlier entries kept in place. */
  predicate AppendedOne(t: seq<Message>, s: seq<Message>, m: Message)
  {
    s == t + [m]
  }

  // ---------------------------------------------------------------- guards

  /** When the handler's own check in `onSubmit` lets it go on: the draft has
      a non-whitespace character or the uploaded file URL is truthy. The
      handler tests the first half as `!input.trim()`; `HandlerTestIsAccepted`
      shows it is the same condition, and `ChatbotInterface.OnSubmit` runs that
      test. */
  predicate SubmitAccepted(s: Session)
  {
    !AllWhitespace(s.input) || Truthy(s.uploadedFileUrl)
  }

  /** The Send button is enabled: its `disabled` expression is false. */
  predicate SendEnabled(s: Session)
    ensures SendEnabled(s) <==> !(s.isLoading || (IsBlank(s.input) && !Truthy(s.uploadedFileUrl)))
  {
    !s.isLoading && SubmitAccepted(s)
  }

  /** The text field is enabled: it is disabled while a request is pending,
      and whenever it is disabled the Send button is too. */
  predicate InputEnabled(s: Session)
    ensures !InputEnabled(s) ==> !SendEnabled(s)
  {
    !s.isLoading
  }

  // ---------------------------------------------------------------- upload

  /** `handleFileChange` up to its `await`: with no file selected nothing
      happens; otherwise the first selected file is recorded and one upload
      of it is issued. */
  function FileChange(s: Session, files: Option<seq<FileRef>>): (r: Dispatched<UploadRequest>)
    ensures (files.None? || files.value == []) ==> r.session == s && r.request == None
    ensures files.Some? && files.value != [] ==>
      && r.session.file == Some(files.value[0])
      && r.request == Some(UploadRequest(files.value[0]))
    ensures r.session.messages == s.messages && r.session.input == s.input
    ensures r.session.isLoading == s.isLoading && r.session.uploadedFileUrl == s.uploadedFileUrl
  {
    match files
    case Some(fs) =>
      if fs == [] then Dispatched(s, None)
      else Dispatched(s.(file := Some(fs[0])), Some(UploadRequest(fs[0])))
    case None => Dispatched(s, None)
  }

  /** `handleFileChange` after its `await`: an OK response overwrites the
      uploaded file URL with the returned `fileUrl`; a failure only logs. */
  function UploadDone(s: Session, outcome: UploadOutcome): (r: Session)
    ensures outcome.UploadOk? ==> r.uploadedFileUrl == outcome.fileUrl
    ensures outcome.UploadFailed? ==> r == s
    ensures r.messages == s.messages && r.input == s.input
    ensures r.isLoading == s.isLoading && r.file == s.file
  {
    match outcome
    case UploadOk(url) => s.(uploadedFileUrl := url)
    case UploadFailed => s
  }

  // ---------------------------------------------------------------- input

  /** `handleInputChange`: the draft becomes the field's value. */
  function InputChange(s: Session, value: string): (r: Session)
    ensures r.input == value
    ensures r.messages == s.messages && r.isLoading == s.isLoading
    ensures r.file == s.file && r.uploadedFileUrl == s.uploadedFileUrl
  {
    s.(input := value)
  }

  // ---------------------------------------------------------------- chat

  /** `onSubmit` up to its `await`, with `now` the clock reading. A rejected
      submit changes nothing and issues nothing. An accepted one appends the
      draft verbatim as a user message, raises the pending flag and issues one
      chat request whose query is the draft alone; the draft itself stays. */
  function Submit(s: Session, now: int): (r: Dispatched<ChatRequest>)
    ensures !SubmitAccepted(s) ==> r.session == s && r.request == None
    ensures SubmitAccepted(s) ==>
      && AppendedOne(s.messages, r.session.messages, Message(now, User, s.input))
      && r.session.isLoading
      && r.request == Some(ChatRequest(s.input))
    ensures r.session.input == s.input
    ensures r.session.file == s.file && r.session.uploadedFileUrl == s.uploadedFileUrl
  {
    if !SubmitAccepted(s) then
      Dispatched(s, None)
    else
      var userMessage := Message(now, User, s.input);
      Dispatched(s.(messages := s.messages + [userMessage], isLoading := true),
                 Some(ChatRequest(s.input)))
  }

  /** The text of the assistant's reply: the returned `message` when it is a
      non-empty string, the fixed fallback otherwise. Never empty. */
  function ReplyContent(message: Option<string>): (r: string)
    ensures Truthy(message) ==> r == message.value
    ensures !Truthy(message) ==> r == NoResponse
    ensures r != []
  {
    if Truthy(message) then message.value else NoResponse
  }

  /** `onSubmit` after its `await`, with `now` the clock reading. Success
      appends one assistant message with id `now + 1`; failure appends
      nothing. Either way the draft is cleared and the pending flag lowered. */
  function ChatDone(s: Session, now: int, outcome: ChatOutcome): (r: Session)
    ensures outcome.ChatOk? ==>
      AppendedOne(s.messages, r.messages, Message(now + 1, Assistant, ReplyContent(outcome.message)))
    ensures outcome.ChatFailed? ==> r.messages == s.messages
    ensures r.input == [] && !r.isLoading
    ensures r.file == s.file && r.uploadedFileUrl == s.uploadedFileUrl
  {
    var messages :=
      match outcome
      case ChatOk(m) => s.messages + [Message(now + 1, Assistant, ReplyContent(m))]
      case ChatFailed => s.messages;
    s.(messages := messages, input := "", isLoading := false)
  }

  // ---------------------------------------------------------------- lemmas

  /** The handler's own test, `!input.trim() && !uploadedFileUrl`, rejects a
      submit exactly when `SubmitAccepted` does not hold. */
  lemma HandlerTestIsAccepted(s: Session)
    ensures SubmitAccepted(s) <==> !(IsBlank(s.input) && !Truthy(s.uploadedFileUrl))
  {
  }

  /** A submit whose draft is all whitespace, with no truthy uploaded file URL,
      is a no-op that issues no request. */
  lemma BlankSubmitIsNoOp(s: Session, now: int)
    requires AllWhitespace(s.input) && !Truthy(s.uploadedFileUrl)
    ensures Submit(s, now) == Dispatched(s, None)
  {
  }

  /** The issued request depends on the draft only: two sessions that differ in
      everything but the draft issue the same request, whatever their uploaded
      file URLs are. */
  lemma RequestIgnoresUploadedUrl(s: Session, t: Session, now: int, now': int)
    requires s.input == t.input && SubmitAccepted(s) && SubmitAccepted(t)
    ensures Submit(s, now).request == Submit(t, now').request == Some(ChatRequest(s.input))
  {
  }

  /** The handler does not look at the pending flag: an accepted submit while a
      request is pending issues a second request. Only the disabled button
      prevents it. */
  lemma SubmitHandlerIgnoresPending(s: Session, now: int)
    requires s.isLoading && SubmitAccepted(s)
    ensures Submit(s, now).request.Some?
    ensures !SendEnabled(s)
  {
  }

  /** An uploaded file URL alone enables Send: a blank draft is accepted when
      the URL is truthy, and such a submit records the blank draft verbatim. */
  lemma UrlAloneAcceptsBlankDraft(s: Session, now: int)
    requires AllWhitespace(s.input) && Truthy(s.uploadedFileUrl)
    ensures SubmitAccepted(s)
    ensures Last(Submit(s, now).session.messages) == Message(now, User, s.input)
  {
  }
}
