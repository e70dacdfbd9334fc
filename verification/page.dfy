/**
  The `ChatbotInterface` component as an object: its five state variables are
  fields, each handler is a method that updates them, and the two ghost
  counters record the requests issued and not yet completed. Every method is
  proved to take the object from `State()` to the `ChatProtocol.Step` of the
  matching event, so the lemmas of ChatSession and ChatProtocol apply to it.
*/
module Page {
  import opened Wrappers
  import opened JsText
  import opened ChatSession
  import opened ChatProtocol

  class ChatbotInterface {
    var messages: seq<Message>
    var input: string
    var isLoading: bool
    var file: Option<FileRef>
    var uploadedFileUrl: Option<string>

    ghost var chatsInFlight: nat
    ghost var uploadsInFlight: nat

    function Snapshot(): Session
      reads this
    {
      Session(messages, input, isLoading, file, uploadedFileUrl)
    }

    ghost function State(): World
      reads this
    {
      World(Snapshot(), chatsInFlight, uploadsInFlight)
    }

    /** Whether the Send button is enabled. */
    function SendButtonEnabled(): (enabled: bool)
      reads this
      ensures enabled <==> SendEnabled(Snapshot())
    {
      !isLoading && (!IsBlank(input) || Truthy(uploadedFileUrl))
    }

    /** The freshly mounted component: empty log and draft, nothing pending,
        no file, no URL. */
    constructor ()
      ensures State() == InitialWorld
      ensures Inv(State())
    {
      messages := [];
      input := "";
      isLoading := false;
      file := None;
      uploadedFileUrl := None;
      chatsInFlight := 0;
      uploadsInFlight := 0;
    }

    /** `handleFileChange` up to its `await`. */
    method HandleFileChange(files: Option<seq<FileRef>>) returns (request: Option<UploadRequest>)
      modifies this
      ensures State() == Step(old(State()), PickFiles(files))
      ensures request == FileChange(old(Snapshot()), files).request
    {
      request := None;
      if files.None? || files.value == [] {
        return;
      }
      var selectedFile := files.value[0];
      file := Some(selectedFile);
      request := Some(UploadRequest(selectedFile));
      uploadsInFlight := uploadsInFlight + 1;
    }

    /** `handleFileChange` after its `await`, for an upload it issued. */
    method CompleteUpload(outcome: UploadOutcome)
      requires uploadsInFlight > 0
      modifies this
      ensures State() == Step(old(State()), UploadReturns(outcome))
    {
      if outcome.UploadOk? {
        uploadedFileUrl := outcome.fileUrl;
      }
      uploadsInFlight := uploadsInFlight - 1;
    }

    /** `handleInputChange`. */
    method HandleInputChange(value: string)
      modifies this
      ensures State() == Step(old(State()), Type(value))
    {
      input := value;
    }

    /** `onSubmit` up to its `await`, with `now` the clock reading. */
    method OnSubmit(now: int) returns (request: Option<ChatRequest>)
      modifies this
      ensures State() == Step(old(State()), Send(now))
      ensures request == Submit(old(Snapshot()), now).request
    {
      SendStep(State(), now);
      request := None;
      if IsBlank(input) && !Truthy(uploadedFileUrl) {
        return;
      }
      var userMessage := Message(now, User, input);
      messages := messages + [userMessage];
      isLoading := true;
      request := Some(ChatRequest(input));
      chatsInFlight := chatsInFlight + 1;
    }

    /** `onSubmit` after its `await`, for a request it issued, with `now` the
        clock reading. */
    method CompleteChat(now: int, outcome: ChatOutcome)
      requires chatsInFlight > 0
      modifies this
      ensures State() == Step(old(State()), ChatReturns(now, outcome))
    {
      if outcome.ChatOk? {
        var botMessage := Message(now + 1, Assistant, ReplyContent(outcome.message));
        messages := messages + [botMessage];
      }
      input := "";
      isLoading := false;
      chatsInFlight := chatsInFlight - 1;
    }
  }
}
