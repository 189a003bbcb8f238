/** The chat tab: an ordered message log, the input line with an optional
    file attachment, and the send handler that appends the user turn, a bot
    placeholder that the streamed reply overwrites, and an error turn when
    the request fails. */
module ChatBot {
  import opened Common

  datatype Sender = User | Bot

  /** One turn of the log. */
  datatype ChatMessage = ChatMessage(sender: Sender, text: string)

  /** A file picked for upload, as the browser reports it. */
  datatype FileInfo = FileInfo(name: string, size: nat, mimeType: string)

  /** A file read into memory: its base64 payload and media type. */
  datatype Attachment = Attachment(file: FileInfo, base64: string, mimeType: string)

  /** One part of the request message. */
  datatype Part = InlineData(data: string, mimeType: string) | TextPart(text: string)

  /** How the streaming request ends: the call itself is rejected, or it
      yields a stream of chunk texts (an absent chunk text is `""`),
      optionally ending in an error thrown mid-stream. */
  datatype Reply = RejectedRequest(err: Thrown) | Stream(chunks: seq<string>, failure: Option<Thrown>)

  const Placeholder := "..."
  const InitFailed := "Failed to initialize chat."
  const NotInitialized := "Chat is not initialized."
  const UnknownError := "An unknown error occurred."
  const FileTooLarge := "File is too large. Please select a file smaller than 4MB."
  const ReadFailed := "Failed to read the file."

  /** 4 MiB, the largest attachment accepted. */
  const MaxFileSize: nat := 4 * 1024 * 1024

  /** The text of the bot turn once `acc` has been streamed: the placeholder
      until some chunk with text has arrived. */
  function BotText(acc: string): (t: string)
    ensures acc == "" ==> t == Placeholder
    ensures acc != "" ==> t == acc
  {
    if acc == "" then Placeholder else acc
  }

  /** The functional update of one chunk: the last message gets the running
      text, but only when it is a bot turn. */
  function SetLastBotText(ms: seq<ChatMessage>, text: string): (r: seq<ChatMessage>)
    ensures |r| == |ms|
    ensures ms != [] ==> r[..|ms| - 1] == ms[..|ms| - 1]
    ensures ms != [] && ms[|ms| - 1].sender == Bot ==> r[|ms| - 1] == ChatMessage(Bot, text)
    ensures (ms == [] || ms[|ms| - 1].sender == User) ==> r == ms
  {
    if ms != [] && ms[|ms| - 1].sender == Bot then ms[..|ms| - 1] + [ChatMessage(Bot, text)]
    else ms
  }

  /** The request parts: the attachment first, then the text unless it is blank. */
  function PartsFor(attachment: Option<Attachment>, text: string): (parts: seq<Part>)
    ensures |parts| <= 2
    ensures parts == [] <==> attachment.None? && Blank(text)
    ensures attachment.Some? ==> parts[0] == InlineData(attachment.value.base64, attachment.value.mimeType)
    ensures TextPart(text) in parts <==> !Blank(text)
    ensures forall i :: 0 <= i < |parts| && parts[i].TextPart? ==> i == |parts| - 1 && parts[i] == TextPart(text)
    ensures forall i :: 0 <= i < |parts| && parts[i].InlineData? ==>
      i == 0 && attachment.Some? && parts[i] == InlineData(attachment.value.base64, attachment.value.mimeType)
    ensures |parts| == (if attachment.Some? then 1 else 0) + (if Blank(text) then 0 else 1)
  {
    TrimEmptyIffBlank(text);
    (if attachment.Some? then [InlineData(attachment.value.base64, attachment.value.mimeType)] else [])
    + (if Trim(text) != "" then [TextPart(text)] else [])
  }

  /** The turns a send appends after the user turn, for a given readiness of
      the chat session and a given reply. */
  function ReplyTurns(ready: bool, reply: Reply): (turns: seq<ChatMessage>)
    ensures |turns| >= 1 && forall i :: 0 <= i < |turns| ==> turns[i].sender == Bot
    ensures ready && reply.Stream? ==> turns[0] == ChatMessage(Bot, BotText(Concat(reply.chunks)))
    ensures !ready || reply.RejectedRequest? ==> |turns| == 1 && |turns[0].text| >= 7 && turns[0].text[..7] == "Error: "
  {
    if !ready then [ErrorTurn(ErrorObject(NotInitialized))]
    else match reply
      case RejectedRequest(err) => [ErrorTurn(err)]
      case Stream(chunks, failure) =>
        [ChatMessage(Bot, BotText(Concat(chunks)))] + (if failure.Some? then [ErrorTurn(failure.value)] else [])
  }

  /** The error text a send leaves behind. */
  function ReplyError(ready: bool, reply: Reply): string
  {
    if !ready then NotInitialized
    else match reply
      case RejectedRequest(err) => MessageOr(err, UnknownError)
      case Stream(_, failure) => if failure.Some? then MessageOr(failure.value, UnknownError) else ""
  }

  /** The bot turn that reports a failure. */
  function ErrorTurn(err: Thrown): (m: ChatMessage)
    ensures m.sender == Bot && m.text == "Error: " + MessageOr(err, UnknownError)
  {
    ChatMessage(Bot, "Error: " + MessageOr(err, UnknownError))
  }

  /** A send appends one bot turn for a clean stream, two for a stream that
      breaks off, and one error turn for a failure before any stream. */
  lemma ReplyTurnCounts(ready: bool, reply: Reply)
    ensures var turns := ReplyTurns(ready, reply);
      1 <= |turns| <= 2
      && (forall i :: 0 <= i < |turns| ==> turns[i].sender == Bot)
      && (|turns| == 2 <==> ready && reply.Stream? && reply.failure.Some?)
      && (ReplyError(ready, reply) != "" ==> turns[|turns| - 1] == ErrorTurn(
            if !ready then ErrorObject(NotInitialized)
            else if reply.RejectedRequest? then reply.err else reply.failure.value))
  {
  }

  /** A stream whose chunks all lack text leaves the placeholder in place;
      otherwise the bot turn is the concatenation of the chunks, in order. */
  lemma StreamedText(chunks: seq<string>)
    ensures BotText(Concat(chunks)) == if forall i :: 0 <= i < |chunks| ==> chunks[i] == "" then Placeholder else Concat(chunks)
  {
    ConcatEmpty(chunks);
  }

  /** `loading && !messages.some(m => m.sender === 'bot' && m.text.endsWith('...'))`. */
  predicate SpinnerVisible(loading: bool, ms: seq<ChatMessage>): (visible: bool)
    ensures visible ==> loading
    ensures (forall i :: 0 <= i < |ms| ==> ms[i].sender == User) ==> (visible <==> loading)
  {
    loading && !exists i :: 0 <= i < |ms| && ms[i].sender == Bot && EndsWith(ms[i].text, Placeholder)
  }

  /** While the placeholder is the last turn, the spinner is hidden. */
  lemma PlaceholderHidesSpinner(loading: bool, ms: seq<ChatMessage>)
    requires ms != [] && ms[|ms| - 1] == ChatMessage(Bot, Placeholder)
    ensures !SpinnerVisible(loading, ms)
  {
    assert EndsWith(ms[|ms| - 1].text, Placeholder);
  }

  /** Once text has streamed in, the condition no longer finds the
      placeholder: for a log with no bot turn ending in an ellipsis, the
      spinner is hidden while the placeholder is pending and shows again below
      the growing reply once that reply is non-empty and does not itself end in
      an ellipsis. */
  lemma SpinnerReturnsDuringStream(ms: seq<ChatMessage>, acc: string)
    requires forall i :: 0 <= i < |ms| && ms[i].sender == Bot ==> !EndsWith(ms[i].text, Placeholder)
    requires acc != "" && !EndsWith(acc, Placeholder)
    ensures !SpinnerVisible(true, ms + [ChatMessage(Bot, Placeholder)])
    ensures SpinnerVisible(true, SetLastBotText(ms + [ChatMessage(Bot, Placeholder)], acc))
  {
    var pending := ms + [ChatMessage(Bot, Placeholder)];
    PlaceholderHidesSpinner(true, pending);
    var streamed := SetLastBotText(pending, acc);
    assert streamed == ms + [ChatMessage(Bot, acc)] by {
      assert pending[..|pending| - 1] == ms;
    }
    forall i | 0 <= i < |streamed| && streamed[i].sender == Bot ensures !EndsWith(streamed[i].text, Placeholder) {
      if i < |ms| {
        assert streamed[i] == ms[i];
      }
    }
  }

  class ChatState {
    var messages: seq<ChatMessage>
    var input: string
    var attachment: Option<Attachment>
    var loading: bool
    var error: string
    /** Whether `chatRef.current` holds a session. */
    var chatReady: bool

    /** Mounting the tab: the session is created, or its creation throws and
        the error is shown. */
    constructor(initFailure: Option<Thrown>)
      ensures messages == [] && input == "" && attachment.None? && !loading
      ensures chatReady <==> initFailure.None?
      ensures error == (if initFailure.Some? then MessageOr(initFailure.value, InitFailed) else "")
    {
      messages := [];
      input := "";
      attachment := None;
      loading := false;
      error := "";
      chatReady := true;
      if initFailure.Some? {
        error := MessageOr(initFailure.value, InitFailed);
        chatReady := false;
      }
    }

    method SetInput(s: string)
      modifies this
      ensures input == s
      ensures messages == old(messages) && attachment == old(attachment) && loading == old(loading)
      ensures error == old(error) && chatReady == old(chatReady)
    {
      input := s;
    }

    method RemoveAttachment()
      modifies this
      ensures attachment.None?
      ensures messages == old(messages) && input == old(input) && loading == old(loading)
      ensures error == old(error) && chatReady == old(chatReady)
    {
      attachment := None;
    }

    /** `handleFileChange` with the picked file (if any) and the base64
        payload the reader produced (or `None` when reading failed). */
    method HandleFileChange(file: Option<FileInfo>, read: Option<string>)
      modifies this
      ensures messages == old(messages) && input == old(input) && loading == old(loading)
      ensures chatReady == old(chatReady)
      ensures file.None? ==> attachment == old(attachment) && error == old(error)
      // a file over the limit is refused and the current attachment stays
      ensures file.Some? && file.value.size > MaxFileSize ==>
        error == FileTooLarge && attachment == old(attachment)
      ensures file.Some? && file.value.size <= MaxFileSize && read.Some? ==>
        error == "" && attachment == Some(Attachment(file.value, read.value, file.value.mimeType))
      ensures file.Some? && file.value.size <= MaxFileSize && read.None? ==>
        error == ReadFailed && attachment == old(attachment)
    {
      if file.Some? {
        if file.value.size > MaxFileSize {
          error := FileTooLarge;
          return;
        }
        error := "";
        if read.Some? {
          attachment := Some(Attachment(file.value, read.value, file.value.mimeType));
        } else {
          error := ReadFailed;
        }
      }
    }

    /** The `catch` branch: show the message and append an error turn. */
    method RecordFailure(err: Thrown)
      modifies this
      ensures error == MessageOr(err, UnknownError)
      ensures messages == old(messages) + [ErrorTurn(err)]
      ensures input == old(input) && attachment == old(attachment) && loading == old(loading)
      ensures chatReady == old(chatReady)
    {
      error := MessageOr(err, UnknownError);
      messages := messages + [ChatMessage(Bot, "Error: " + error)];
    }

    /** Consume the stream: append the placeholder, then let every chunk with
        text extend the running reply and rewrite the last turn with it. */
    method ConsumeStream(chunks: seq<string>)
      modifies this
      ensures messages == old(messages) + [ChatMessage(Bot, BotText(Concat(chunks)))]
      ensures input == old(input) && attachment == old(attachment) && loading == old(loading)
      ensures error == old(error) && chatReady == old(chatReady)
    {
      var botResponse := "";
      messages := messages + [ChatMessage(Bot, Placeholder)];
      var i := 0;
      while i < |chunks|
        invariant 0 <= i <= |chunks|
        invariant botResponse == Concat(chunks[..i])
        // no turn is added or removed while streaming; only the last one changes
        invariant messages == old(messages) + [ChatMessage(Bot, BotText(botResponse))]
        invariant input == old(input) && attachment == old(attachment) && loading == old(loading)
        invariant error == old(error) && chatReady == old(chatReady)
      {
        var chunk := chunks[i];
        assert chunks[..i + 1] == chunks[..i] + [chunk];
        ConcatSnoc(chunks[..i], chunk);
        if chunk != "" {
          botResponse := botResponse + chunk;
          messages := SetLastBotText(messages, botResponse);
        }
        i := i + 1;
      }
      assert chunks[..i] == chunks;
    }

    /** The `try` block after the request goes out: the stream or the failure. */
    method ReceiveReply(reply: Reply)
      requires error == ""
      modifies this
      ensures messages == old(messages) + ReplyTurns(true, reply)
      ensures error == ReplyError(true, reply)
      ensures input == old(input) && attachment == old(attachment) && loading == old(loading)
      ensures chatReady == old(chatReady)
    {
      match reply {
        case RejectedRequest(err) =>
          RecordFailure(err);
        case Stream(chunks, failure) =>
          ConsumeStream(chunks);
          if failure.Some? {
            RecordFailure(failure.value);
          }
      }
    }

    /** `handleSendMessage` with the reply of the session given. Returns the
        request parts when a request goes out. */
    method HandleSendMessage(reply: Reply) returns (sent: Option<seq<Part>>)
      modifies this
      ensures chatReady == old(chatReady)
      // nothing to send, or a send in flight: nothing happens
      ensures (Blank(old(input)) && old(attachment).None?) || old(loading) ==>
        sent.None? && messages == old(messages) && input == old(input)
        && attachment == old(attachment) && loading == old(loading) && error == old(error)
      // a send: the user turn with the untrimmed input, then the reply's turns
      ensures !((Blank(old(input)) && old(attachment).None?) || old(loading)) ==>
        messages == old(messages) + [ChatMessage(User, old(input))] + ReplyTurns(chatReady, reply)
        && input == "" && attachment.None? && !loading
        && error == ReplyError(chatReady, reply)
        && sent == (if chatReady then Some(PartsFor(old(attachment), old(input))) else None)
    {
      // `!input.trim()` is `Blank(input)` (Common.TrimEmptyIffBlank)
      if (Blank(input) && attachment.None?) || loading {
        return None;
      }
      var userMessage := ChatMessage(User, input);
      messages := messages + [userMessage];
      var currentInput := input;
      var currentAttachment := attachment;
      input := "";
      attachment := None;
      loading := true;
      error := "";
      if !chatReady {
        RecordFailure(ErrorObject(NotInitialized));
        loading := false;
        return None;
      }
      sent := Some(PartsFor(currentAttachment, currentInput));
      ReceiveReply(reply);
      loading := false;
    }
  }
}
