/**
  Runs of the page: sequences of user actions and network completions applied
  to the session one at a time. A completion can only occur for a request that
  was issued and has not completed yet; the page's disabled controls add a
  second, separate condition on typing and on pressing Send.
*/
module ChatProtocol {
  import opened Wrappers
  import opened JsText
  import opened ChatSession

  datatype Event =
    | PickFiles(files: Option<seq<FileRef>>)
    | UploadReturns(upload: UploadOutcome)
    | Type(value: string)
    | Send(now: int)
    | ChatReturns(now: int, chat: ChatOutcome)

  /** The session together with the number of issued, not yet completed,
      chat and upload requests. */
  datatype World = World(session: Session, chatsInFlight: nat, uploadsInFlight: nat)

  const InitialWorld := World(InitialSession, 0, 0)

  /** The event can occur at all: a completion needs an outstanding request. */
  predicate Pending(w: World, e: Event)
  {
    match e
    case UploadReturns(_) => w.uploadsInFlight > 0
    case ChatReturns(_, _) => w.chatsInFlight > 0
    case _ => true
  }

  /** The page lets the user do it: typing needs the enabled text field,
      Send needs the enabled button. */
  predicate UiAllows(w: World, e: Event)
  {
    match e
    case Type(_) => InputEnabled(w.session)
    case Send(_) => SendEnabled(w.session)
    case _ => true
  }

  /** One event, handled to the end of its synchronous part. The log only
      grows, and each request counter moves by at most one. */
  function Step(w: World, e: Event): (r: World)
    requires Pending(w, e)
    ensures w.session.messages <= r.session.messages
    ensures -1 <= r.chatsInFlight - w.chatsInFlight <= 1
    ensures -1 <= r.uploadsInFlight - w.uploadsInFlight <= 1
  {
    match e
    case PickFiles(files) =>
      var d := FileChange(w.session, files);
      World(d.session, w.chatsInFlight, w.uploadsInFlight + if d.request.Some? then 1 else 0)
    case UploadReturns(outcome) =>
      World(UploadDone(w.session, outcome), w.chatsInFlight, w.uploadsInFlight - 1)
    case Type(value) =>
      w.(session := InputChange(w.session, value))
    case Send(now) =>
      var d := Submit(w.session, now);
      World(d.session, w.chatsInFlight + if d.request.Some? then 1 else 0, w.uploadsInFlight)
    case ChatReturns(now, outcome) =>
      World(ChatDone(w.session, now, outcome), w.chatsInFlight - 1, w.uploadsInFlight)
  }

  /** A Send on each side of the handler's guard: ignored, or the prompt is
      logged, the flag raised and one more chat request is in flight. It adds
      nothing to the model: it only unfolds `Step` once, to keep the proof of
      `ChatbotInterface.OnSubmit` small. */
  lemma SendStep(w: World, now: int)
    ensures !SubmitAccepted(w.session) ==> Step(w, Send(now)) == w
    ensures SubmitAccepted(w.session) ==>
      Step(w, Send(now)) == World(w.session.(messages := w.session.messages + [Message(now, User, w.session.input)],
                                             isLoading := true),
                                  w.chatsInFlight + 1, w.uploadsInFlight)
  {
  }

  /** Every event of `es` can occur when its turn comes. */
  predicate Feasible(w: World, es: seq<Event>)
    decreases |es|
  {
    es == [] || (Pending(w, es[0]) && Feasible(Step(w, es[0]), es[1..]))
  }

  /** Every event of `es` can occur and the page allows it when its turn comes. */
  predicate Guarded(w: World, es: seq<Event>)
    decreases |es|
  {
    es == [] || (Pending(w, es[0]) && UiAllows(w, es[0]) && Guarded(Step(w, es[0]), es[1..]))
  }

  /** The world after the events of `es`, in order. The log is only ever
      extended: what was in it stays, in place. */
  function Run(w: World, es: seq<Event>): (r: World)
    requires Feasible(w, es)
    ensures w.session.messages <= r.session.messages
    decreases |es|
  {
    if es == [] then w else Run(Step(w, es[0]), es[1..])
  }

  lemma {:induction false} GuardedIsFeasible(w: World, es: seq<Event>)
    requires Guarded(w, es)
    ensures Feasible(w, es)
    decreases |es|
  {
    if es != [] {
      GuardedIsFeasible(Step(w, es[0]), es[1..]);
    }
  }

  // ------------------------------------------------------ the chat invariant

  /** Every assistant message comes right after a user message. */
  predicate RepliesFollowPrompts(m: seq<Message>)
  {
    forall i :: 0 <= i < |m| && m[i].role == Assistant ==> 0 < i && m[i - 1].role == User
  }

  /** The pending flag is up exactly when one chat request is in flight (so
      never more than one is), the message awaiting its reply is the last
      one, and replies follow prompts. */
  predicate Inv(w: World)
  {
    && w.chatsInFlight == (if w.session.isLoading then 1 else 0)
    && (w.session.isLoading ==> w.session.messages != [] && Last(w.session.messages).role == User)
    && RepliesFollowPrompts(w.session.messages)
  }

  lemma StepPreservesInv(w: World, e: Event)
    requires Inv(w) && Pending(w, e) && UiAllows(w, e)
    ensures Inv(Step(w, e))
  {
    var m, m' := w.session.messages, Step(w, e).session.messages;
    match e
    case Send(now) =>
      assert SubmitAccepted(w.session) && m' == m + [Message(now, User, w.session.input)];
    case ChatReturns(now, outcome) =>
      assert w.session.isLoading && Last(m).role == User;
    case _ =>
      assert m' == m;
  }


  lemma {:induction false} RunPreservesInv(w: World, es: seq<Event>)
    requires Inv(w) && Guarded(w, es)
    ensures Feasible(w, es) && Inv(Run(w, es))
    decreases |es|
  {
    GuardedIsFeasible(w, es);
    if es != [] {
      StepPreservesInv(w, es[0]);
      RunPreservesInv(Step(w, es[0]), es[1..]);
    }
  }

  /** On every run the page allows from a fresh page, at most one chat request
      is in flight, and the log pairs every reply with the prompt before it. */
  lemma AtMostOneChatInFlight(es: seq<Event>)
    requires Guarded(InitialWorld, es)
    ensures Feasible(InitialWorld, es)
    ensures Run(InitialWorld, es).chatsInFlight <= 1
    ensures Run(InitialWorld, es).session.isLoading <==> Run(InitialWorld, es).chatsInFlight == 1
    ensures RepliesFollowPrompts(Run(InitialWorld, es).session.messages)
  {
    RunPreservesInv(InitialWorld, es);
  }

  /** Without the disabled button, the handler alone lets a second send go
      through while the first request is pending: two chat requests are then
      in flight and the invariant is broken. */
  lemma GuardIsNeeded()
    ensures var w := World(InitialSession.(input := "Hi"), 0, 0);
      && Inv(w) && !UiAllows(Step(w, Send(1)), Send(2))
      && Step(Step(w, Send(1)), Send(2)).chatsInFlight == 2
      && !Inv(Step(Step(w, Send(1)), Send(2)))
  {
    var w := World(InitialSession.(input := "Hi"), 0, 0);
    assert !AllWhitespace("Hi") by { assert !IsJsWhitespace("Hi"[0]); }
    var w1 := Step(w, Send(1));
    assert w1.session.input == "Hi" && w1.chatsInFlight == 1;
  }

  // ---------------------------------------------- nothing interleaves a pair

  /** While a chat request is in flight, no allowed event other than its
      completion touches the log or the pending flag. */
  lemma {:induction false} InFlightLogFrozen(w: World, es: seq<Event>)
    requires Inv(w) && w.session.isLoading && Guarded(w, es)
    requires forall k :: 0 <= k < |es| ==> !es[k].ChatReturns?
    ensures Feasible(w, es)
    ensures Run(w, es).session.messages == w.session.messages
    ensures Run(w, es).session.isLoading && Run(w, es).chatsInFlight == 1
    decreases |es|
  {
    GuardedIsFeasible(w, es);
    if es != [] {
      assert !es[0].ChatReturns?;
      StepPreservesInv(w, es[0]);
      InFlightLogFrozen(Step(w, es[0]), es[1..]);
    }
  }

  /** A chat round trip the page allows, with any allowed events in between
      other than chat completions: the log gains the prompt and, right after
      it, the reply on success or nothing on failure; the draft ends empty and
      the pending flag down. */
  lemma RoundTrip(w: World, t: int, es: seq<Event>, t': int, outcome: ChatOutcome)
    requires Inv(w) && SendEnabled(w.session)
    requires Guarded(Step(w, Send(t)), es)
    requires forall k :: 0 <= k < |es| ==> !es[k].ChatReturns?
    ensures Feasible(Step(w, Send(t)), es)
    ensures Pending(Run(Step(w, Send(t)), es), ChatReturns(t', outcome))
    ensures var r := Step(Run(Step(w, Send(t)), es), ChatReturns(t', outcome));
      && r.session.messages == w.session.messages + [Message(t, User, w.session.input)] +
           (if outcome.ChatOk? then [Message(t' + 1, Assistant, ReplyContent(outcome.message))] else [])
      && r.session.input == [] && !r.session.isLoading && r.chatsInFlight == 0
  {
    var w1 := Step(w, Send(t));
    StepPreservesInv(w, Send(t));
    InFlightLogFrozen(w1, es);
  }

  // ------------------------------------------------------ the uploaded URL

  predicate IsUploadSuccess(e: Event)
  {
    e.UploadReturns? && e.upload.UploadOk?
  }

  /** With no successful upload among the events, the uploaded file URL stays
      what it was. */
  lemma {:induction false} NoUploadKeepsUrl(w: World, es: seq<Event>)
    requires Feasible(w, es)
    requires forall k :: 0 <= k < |es| ==> !IsUploadSuccess(es[k])
    ensures Run(w, es).session.uploadedFileUrl == w.session.uploadedFileUrl
    decreases |es|
  {
    if es != [] {
      assert !IsUploadSuccess(es[0]);
      NoUploadKeepsUrl(Step(w, es[0]), es[1..]);
    }
  }

  /** The uploaded file URL is the `fileUrl` of the last successful upload:
      later failures do not clear it and earlier successes are overwritten. */
  lemma {:induction false} LastUploadWins(w: World, es: seq<Event>, j: nat)
    requires Feasible(w, es)
    requires j < |es| && IsUploadSuccess(es[j])
    requires forall k :: j < k < |es| ==> !IsUploadSuccess(es[k])
    ensures Run(w, es).session.uploadedFileUrl == es[j].upload.fileUrl
    decreases |es|
  {
    if j == 0 {
      NoUploadKeepsUrl(Step(w, es[0]), es[1..]);
    } else {
      LastUploadWins(Step(w, es[0]), es[1..], j - 1);
    }
  }

  // ------------------------------------------------------------ scenarios

  /** Typing "Hello" on a fresh page and sending it issues `query=Hello`; the
      reply "Hi there" gives the log [user "Hello", assistant "Hi there"]. */
  lemma HelloScenario(t: int, t': int)
    ensures var w1 := Step(InitialWorld, Type("Hello"));
      && SendEnabled(w1.session)
      && Submit(w1.session, t).request == Some(ChatRequest("Hello"))
      && Pending(Step(w1, Send(t)), ChatReturns(t', ChatOk(Some("Hi there"))))
      && Step(Step(w1, Send(t)), ChatReturns(t', ChatOk(Some("Hi there")))).session.messages
         == [Message(t, User, "Hello"), Message(t' + 1, Assistant, "Hi there")]
  {
    var w1 := Step(InitialWorld, Type("Hello"));
    assert w1.session == InitialSession.(input := "Hello");
    assert !AllWhitespace("Hello") by { assert !IsJsWhitespace("Hello"[0]); }
    var w2 := Step(w1, Send(t));
    assert w2.session.messages == [Message(t, User, "Hello")];
    assert ReplyContent(Some("Hi there")) == "Hi there";
  }

  /** A successful upload stores its URL; a second, failed upload of another
      file leaves it in place while the newly picked file is recorded. */
  lemma UploadScenario(f: FileRef, g: FileRef)
    ensures var url := Some("https://store/abc");
      var w1 := Step(InitialWorld, PickFiles(Some([f])));
      var w2 := Step(w1, UploadReturns(UploadOk(url)));
      var w3 := Step(w2, PickFiles(Some([g])));
      && Pending(w1, UploadReturns(UploadOk(url)))
      && w2.session.uploadedFileUrl == url
      && Pending(w3, UploadReturns(UploadFailed))
      && Step(w3, UploadReturns(UploadFailed)).session.uploadedFileUrl == url
      && Step(w3, UploadReturns(UploadFailed)).session.file == Some(g)
  {
  }

  /** Message ids are clock readings: a reply received at millisecond 100 and
      a prompt sent at millisecond 101 both get id 101. */
  lemma IdsMayCollide()
    ensures var w1 := Step(World(InitialSession.(input := "a"), 0, 0), Send(99));
      && Pending(w1, ChatReturns(100, ChatOk(None)))
      && var w2 := Step(Step(w1, ChatReturns(100, ChatOk(None))), Type("b"));
      && var w3 := Step(w2, Send(101));
      && |w3.session.messages| == 3
      && w3.session.messages[1].id == w3.session.messages[2].id == 101
  {
    assert !AllWhitespace("a") by { assert !IsJsWhitespace("a"[0]); }
    assert !AllWhitespace("b") by { assert !IsJsWhitespace("b"[0]); }
  }
}
