/** The session controller of the chat page: the component state (message
    log, input text, busy flag, staged image) and the handlers that change it.

    A send is one turn, split into the steps the asynchronous handler goes
    through: `BeginSend` (guard, user message, placeholder), `OnChunk` (one
    forwarded chunk), `OnError` (the call failed), `OnFinally` (always).
    `SendMessage` runs a whole turn against a given service response. Message
    ids, produced from the clock by the source, are supplied by the caller. */
module ChatSession {
  import opened ChatTypes
  import opened Strings
  import opened ChatLog
  import opened ChatExport
  import opened GeminiService

  /** The text the placeholder shows when the call fails. */
  const ErrorText: string := "抱歉，处理您的请求时遇到了错误，请稍后重试。"

  /** Media type given to the image passed to the streamer. */
  const StreamImageMimeType: string := "image/png"

  /** What the send handler passes to the streamer. */
  datatype StreamCall = StreamCall(history: seq<ChatMessage>, text: string, image: Option<Attachment>)

  /** The send guard: nothing to send (blank input and no staged image), or
      a turn is already in flight. */
  predicate SendBlocked(input: string, staged: Option<Attachment>, isLoading: bool)
  {
    (IsBlank(input) && staged.None?) || isLoading
  }

  /** The user message of a send: the raw input and the staged image's data,
      without its media type. */
  function UserMessage(id: MessageId, input: string, staged: Option<Attachment>): (m: ChatMessage)
    ensures m.id == id && m.role == User && m.text == input && !m.isStreaming
    ensures m.image.Some? <==> staged.Some?
    ensures staged.Some? ==> m.image.value == staged.value.data
  {
    ChatMessage(id, User, input, if staged.Some? then Some(staged.value.data) else None, false)
  }

  /** The model placeholder: empty and streaming. */
  function Placeholder(id: MessageId): (m: ChatMessage)
    ensures m.id == id && m.role == Model && m.isStreaming
    ensures m.text == "" && m.image.None?
  {
    ChatMessage(id, Model, "", None, true)
  }

  /** The image handed to the streamer: the user message's image, when it is
      not empty, relabelled `image/png`. */
  function StreamImage(image: Option<string>): (a: Option<Attachment>)
    ensures a.Some? <==> Truthy(image)
    ensures a.Some? ==> a.value.data == image.value && a.value.mimeType == StreamImageMimeType
  {
    if Truthy(image) then Some(Attachment(image.value, StreamImageMimeType)) else None
  }

  /** The placeholder's final text: the error text when the key is missing or
      the service fails, otherwise the whole streamed text. */
  function ReplyText(hasKey: bool, service: ServiceStream): (t: string)
    ensures !hasKey || service.fails ==> t == ErrorText
    ensures hasKey && !service.fails ==> t == Concat(ForwardedTexts(service.chunks))
  {
    ForwardedTextsConcat(service.chunks);
    if !hasKey || service.fails then ErrorText else StreamText(service.chunks)
  }

  /** Replayed as history in the next send, a user message with non-empty
      text becomes the same turn it was sent as; its image is labelled
      `image/png` both times, whatever its media type was when staged. */
  lemma UserMessageReplayed(id: MessageId, input: string, staged: Option<Attachment>)
    requires input != ""
    ensures HistoryTurn(UserMessage(id, input, staged))
         == CurrentTurn(input, StreamImage(UserMessage(id, input, staged).image))
  {
  }

  /** A reply that streamed no text (no chunk, or only empty ones) is
      replayed in the next request as a model turn with no parts. */
  lemma EmptyReplyReplayed(id: MessageId, service: ServiceStream)
    requires ReplyText(true, service) == ""
    ensures HistoryTurn(Apply(Placeholder(id).(text := ReplyText(true, service)), EndStreaming)) == Content(Model, [])
  {
  }

  /** The image uploader only accepts files whose type starts with `image/`. */
  predicate AcceptsFileType(fileType: string)
  {
    StartsWith(fileType, "image/")
  }

  class Session {
    var messages: seq<ChatMessage>
    var input: string
    var isLoading: bool
    var attachedImage: Option<Attachment>
    /** The placeholder id of the turn in flight (a local of the send handler). */
    ghost var placeholder: Option<MessageId>

    ghost predicate Valid()
      reads this
    {
      LogInvariant(messages, placeholder) && (isLoading <==> placeholder.Some?)
    }

    constructor ()
      ensures Valid()
      ensures messages == [] && input == "" && !isLoading && attachedImage == None
    {
      messages := [];
      input := "";
      isLoading := false;
      attachedImage := None;
      placeholder := None;
    }

    /** Typing in the input box. */
    method EditInput(text: string)
      requires Valid()
      modifies this
      ensures Valid()
      ensures input == text
      ensures messages == old(messages) && isLoading == old(isLoading) && attachedImage == old(attachedImage)
      ensures placeholder == old(placeholder)
    {
      input := text;
    }

    /** `handleImageSelected`: the single staged slot is overwritten. */
    method SelectImage(data: string, mimeType: string)
      requires Valid()
      modifies this
      ensures Valid()
      ensures attachedImage == Some(Attachment(data, mimeType))
      ensures messages == old(messages) && input == old(input) && isLoading == old(isLoading)
      ensures placeholder == old(placeholder)
    {
      attachedImage := Some(Attachment(data, mimeType));
    }

    /** The uploader's file handling: a non-image file is ignored, an image
        file is staged with its data URL and its type. */
    method OfferFile(fileType: string, dataUrl: string)
      requires Valid()
      modifies this
      ensures Valid()
      ensures attachedImage == if AcceptsFileType(fileType) then Some(Attachment(dataUrl, fileType)) else old(attachedImage)
      ensures messages == old(messages) && input == old(input) && isLoading == old(isLoading)
      ensures placeholder == old(placeholder)
    {
      if AcceptsFileType(fileType) {
        SelectImage(dataUrl, fileType);
      }
    }

    /** Removing the staged image from the uploader. */
    method RemoveImage()
      requires Valid()
      modifies this
      ensures Valid()
      ensures attachedImage == None
      ensures messages == old(messages) && input == old(input) && isLoading == old(isLoading)
      ensures placeholder == old(placeholder)
    {
      attachedImage := None;
    }

    /** `handleClearChat`: a confirmed clear empties the log, the staged image
        and the input; an unconfirmed one changes nothing. The busy flag is
        left alone, so a clear during a turn lets the turn finish on an empty log. */
    method ClearChat(confirmed: bool)
      requires Valid()
      modifies this
      ensures Valid()
      ensures confirmed ==> messages == [] && attachedImage == None && input == ""
      ensures !confirmed ==> messages == old(messages) && attachedImage == old(attachedImage) && input == old(input)
      ensures isLoading == old(isLoading) && placeholder == old(placeholder)
    {
      if confirmed {
        messages := [];
        attachedImage := None;
        input := "";
      }
    }

    /** `handleExportChat`: the document to download, if the log is not empty. */
    method ExportChat() returns (content: Option<string>)
      ensures content == ExportContent(messages)
    {
      content := ExportContent(messages);
    }

    /** The synchronous part of `handleSendMessage`. A blocked send changes
        nothing. An accepted one appends the user message and the streaming
        placeholder, clears the input and the staged image, sets the busy
        flag, and returns what the streamer is called with: the log as it
        stood before the send, the raw input, and the image as `image/png`. */
    method BeginSend(userId: MessageId, botId: MessageId) returns (call: Option<StreamCall>)
      requires Valid()
      requires userId != botId && !HasId(messages, userId) && !HasId(messages, botId)
      modifies this
      ensures Valid()
      ensures old(SendBlocked(input, attachedImage, isLoading)) ==>
                && call == None
                && messages == old(messages) && input == old(input)
                && attachedImage == old(attachedImage) && isLoading == old(isLoading)
                && placeholder == old(placeholder)
      ensures !old(SendBlocked(input, attachedImage, isLoading)) ==>
                && call == Some(StreamCall(old(messages), old(input), StreamImage(UserMessage(userId, old(input), old(attachedImage)).image)))
                && messages == old(messages) + [UserMessage(userId, old(input), old(attachedImage)), Placeholder(botId)]
                && input == "" && attachedImage == None && isLoading
                && placeholder == Some(botId)
    {
      if SendBlocked(input, attachedImage, isLoading) {
        return None;
      }
      var newUserMessage := UserMessage(userId, input, attachedImage);
      var history := messages;
      BeginKeepsInvariant(messages, newUserMessage, Placeholder(botId));
      messages := messages + [newUserMessage];
      input := "";
      attachedImage := None;
      isLoading := true;
      messages := messages + [Placeholder(botId)];
      placeholder := Some(botId);
      call := Some(StreamCall(history, newUserMessage.text, StreamImage(newUserMessage.image)));
    }

    /** The `onChunk` callback: the chunk is appended to the placeholder's
        text; every other message stays as it is. */
    method OnChunk(botId: MessageId, chunk: string)
      requires Valid() && placeholder == Some(botId)
      modifies this
      ensures Valid() && placeholder == old(placeholder)
      ensures messages == UpdateById(old(messages), botId, AppendText(chunk))
      ensures input == old(input) && attachedImage == old(attachedImage) && isLoading == old(isLoading)
    {
      PatchKeepsInvariant(messages, botId, AppendText(chunk));
      messages := UpdateById(messages, botId, AppendText(chunk));
    }

    /** The `catch` branch: the placeholder's text becomes the error text,
        whatever was streamed into it. */
    method OnError(botId: MessageId)
      requires Valid() && placeholder == Some(botId)
      modifies this
      ensures Valid() && placeholder == old(placeholder)
      ensures messages == UpdateById(old(messages), botId, ReplaceText(ErrorText))
      ensures input == old(input) && attachedImage == old(attachedImage) && isLoading == old(isLoading)
    {
      PatchKeepsInvariant(messages, botId, ReplaceText(ErrorText));
      messages := UpdateById(messages, botId, ReplaceText(ErrorText));
    }

    /** The `finally` branch: the busy flag is cleared and the placeholder
        stops streaming; no message is streaming afterwards. */
    method OnFinally(botId: MessageId)
      requires Valid() && placeholder == Some(botId)
      modifies this
      ensures Valid() && placeholder == None && !isLoading
      ensures messages == UpdateById(old(messages), botId, EndStreaming)
      ensures forall k :: 0 <= k < |messages| ==> !messages[k].isStreaming
      ensures input == old(input) && attachedImage == old(attachedImage)
    {
      EndStreamingEndsTurn(messages, botId);
      isLoading := false;
      messages := UpdateById(messages, botId, EndStreaming);
      placeholder := None;
    }

    /** The `onChunk` callbacks of one call, in order: the forwarded texts
        are appended to the placeholder one after the other. */
    method DeliverChunks(botId: MessageId, forwarded: seq<string>)
      requires Valid() && placeholder == Some(botId)
      modifies this
      ensures Valid() && placeholder == old(placeholder)
      ensures messages == UpdateById(old(messages), botId, AppendText(Concat(forwarded)))
      ensures input == old(input) && attachedImage == old(attachedImage) && isLoading == old(isLoading)
    {
      ghost var start := messages;
      var i := 0;
      while i < |forwarded|
        invariant 0 <= i <= |forwarded|
        invariant Valid() && placeholder == Some(botId)
        invariant input == old(input) && attachedImage == old(attachedImage) && isLoading == old(isLoading)
        invariant messages == FoldChunks(start, botId, forwarded[..i])
      {
        OnChunk(botId, forwarded[i]);
        assert forwarded[..i + 1][..i] == forwarded[..i];
        i := i + 1;
      }
      assert forwarded[..i] == forwarded;
      FoldChunksIsConcat(start, botId, forwarded);
    }

    /** The asynchronous part of `handleSendMessage`: the streamer is
        called with `call`; its forwarded chunks are appended to the
        placeholder (the last message); on failure the text is replaced by
        the error text; finally streaming ends and the busy flag is cleared.
        `request` is what was sent to the model. */
    method FinishTurn(botId: MessageId, call: StreamCall, hasKey: bool, service: ServiceStream)
      returns (request: Option<seq<Content>>)
      requires Valid() && placeholder == Some(botId)
      requires messages != [] && messages[|messages| - 1] == Placeholder(botId)
      modifies this
      ensures Valid() && placeholder == None && !isLoading
      ensures messages == old(messages)[..|old(messages)| - 1] + [ChatMessage(botId, Model, ReplyText(hasKey, service), None, false)]
      ensures input == old(input) && attachedImage == old(attachedImage)
      ensures request == if hasKey then Some(Request(call.history, call.text, call.image)) else None
    {
      ghost var front := messages[..|messages| - 1];
      assert messages == front + [Placeholder(botId)];
      var forwarded, err;
      request, forwarded, err := StreamResponse(hasKey, call.history, call.text, call.image, service);
      DeliverChunks(botId, forwarded);
      ghost var reply := Placeholder(botId).(text := "" + Concat(forwarded));
      UpdateLast(front, Placeholder(botId), AppendText(Concat(forwarded)));
      assert messages == front + [reply];
      if hasKey {
        ForwardedTextsConcat(service.chunks);
      }
      assert "" + Concat(forwarded) == Concat(forwarded);
      if err.Some? {
        OnError(botId);
        UpdateLast(front, reply, ReplaceText(ErrorText));
        reply := reply.(text := ErrorText);
        assert messages == front + [reply];
      }
      assert reply.text == ReplyText(hasKey, service);
      assert messages == front + [reply] && UniqueIds(messages);
      OnFinally(botId);
      UpdateLast(front, reply, EndStreaming);
      assert Apply(reply, EndStreaming) == ChatMessage(botId, Model, ReplyText(hasKey, service), None, false);
    }

    /** A whole `handleSendMessage` turn against the service response
        `service`. A blocked send changes nothing and sends nothing. An
        accepted one leaves the old log followed by the user message and the
        finished model reply, whose text is the concatenation of all chunk
        texts on success and the error text on failure; the busy flag is
        cleared. `request` is what was sent to the model: the projection of
        the log as it stood before the send. */
    method SendMessage(userId: MessageId, botId: MessageId, hasKey: bool, service: ServiceStream)
      returns (request: Option<seq<Content>>)
      requires Valid()
      requires userId != botId && !HasId(messages, userId) && !HasId(messages, botId)
      modifies this
      ensures Valid()
      ensures old(SendBlocked(input, attachedImage, isLoading)) ==>
                && request == None
                && messages == old(messages) && input == old(input)
                && attachedImage == old(attachedImage) && isLoading == old(isLoading)
                && placeholder == old(placeholder)
      ensures !old(SendBlocked(input, attachedImage, isLoading)) ==>
                && messages == old(messages) + [UserMessage(userId, old(input), old(attachedImage)),
                                                ChatMessage(botId, Model, ReplyText(hasKey, service), None, false)]
                && input == "" && attachedImage == None && !isLoading
      ensures !old(SendBlocked(input, attachedImage, isLoading)) ==>
                request == (if hasKey then Some(Request(old(messages), old(input),
                                                         StreamImage(UserMessage(userId, old(input), old(attachedImage)).image)))
                            else None)
    {
      ghost var front := messages + [UserMessage(userId, input, attachedImage)];
      var call := BeginSend(userId, botId);
      if call == None {
        return None;
      }
      assert messages == front + [Placeholder(botId)];
      request := FinishTurn(botId, call.value, hasKey, service);
      assert messages == front + [ChatMessage(botId, Model, ReplyText(hasKey, service), None, false)];
    }
  }
}
