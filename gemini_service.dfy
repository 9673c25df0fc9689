/** The response streamer: it projects the chat history and the new input
    onto the ordered, role-tagged turns of a model request, then forwards
    the texts of the streamed response chunks to the caller.

    The model service itself is not modelled: its response is given as the
    chunks it delivers, in arrival order, and whether it ends by raising an
    error. The presence of the API key is a boolean. */
module GeminiService {
  import opened ChatTypes
  import opened Strings

  /** One part of a turn: inline image data or text. */
  datatype Part = InlineData(mimeType: string, data: string) | Text(text: string)

  /** One role-tagged turn of the request. */
  datatype Content = Content(role: Role, parts: seq<Part>)

  /** Why a call fails: no API key configured, or an error raised by the
      model service, which ends the call after the chunks that preceded it. */
  datatype StreamError = MissingApiKey | ServiceError

  /** What the model service delivers: its chunks in arrival order, each
      with an optional text, then either a normal end or a raised error. */
  datatype ServiceStream = ServiceStream(chunks: seq<Option<string>>, fails: bool)

  /** Media type given to every image of the history. */
  const HistoryImageMimeType: string := "image/png"

  /** `data.split(',')[1] || data`: the field after the first comma, when
      there is one and it is not empty; otherwise the whole string. */
  function StripDataUrlPrefix(data: string): (r: string)
    ensures ',' !in data ==> r == data
    ensures r == data || (r != "" && ',' !in r)
  {
    var fields := Split(data, ',');
    if |fields| > 1 && fields[1] != "" then fields[1] else data
  }

  /** The first field of `payload` followed by nothing or by `,more` is `payload`. */
  lemma FirstFieldOf(payload: string, tail: string)
    requires ',' !in payload
    requires tail == [] || tail[0] == ','
    ensures Split(payload + tail, ',')[0] == payload
  {
    if tail == [] {
      assert payload + tail == payload;
    } else {
      assert payload + tail == payload + [','] + tail[1..];
      SplitAtFirst(payload, ',', tail[1..]);
    }
  }

  /** For `prefix,payload` possibly followed by `,more`, the result is the
      payload between the first and the second comma, unless it is empty. */
  lemma StripDataUrlPrefixTakesPayload(prefix: string, payload: string, tail: string)
    requires ',' !in prefix && ',' !in payload
    requires tail == [] || tail[0] == ','
    ensures StripDataUrlPrefix(prefix + [','] + payload + tail)
         == if payload != "" then payload else prefix + [','] + payload + tail
  {
    var s := prefix + [','] + payload + tail;
    assert s == prefix + [','] + (payload + tail);
    SplitAtFirst(prefix, ',', payload + tail);
    FirstFieldOf(payload, tail);
    var fields := Split(s, ',');
    assert |fields| > 1 && fields[1] == payload;
  }

  /** The turn one history message becomes: an image part when the message
      has a non-empty image, then a text part when its text is not empty. */
  function HistoryTurn(m: ChatMessage): (c: Content)
    ensures c.role == m.role
    ensures |c.parts| <= 2
    ensures c.parts == [] <==> !Truthy(m.image) && m.text == ""
    ensures (c.parts != [] && c.parts[0].InlineData?) <==> Truthy(m.image)
    ensures (c.parts != [] && c.parts[|c.parts| - 1].Text?) <==> m.text != ""
    ensures Truthy(m.image) ==> c.parts[0] == InlineData(HistoryImageMimeType, StripDataUrlPrefix(m.image.value))
    ensures m.text != "" ==> c.parts[|c.parts| - 1] == Text(m.text)
  {
    var imagePart := if Truthy(m.image) then [InlineData(HistoryImageMimeType, StripDataUrlPrefix(m.image.value))] else [];
    var textPart := if m.text != "" then [Text(m.text)] else [];
    Content(m.role, imagePart + textPart)
  }

  /** `history.map(...)`: one turn per message, in order. */
  function HistoryTurns(history: seq<ChatMessage>): (r: seq<Content>)
    ensures |r| == |history|
    ensures forall k :: 0 <= k < |history| ==> r[k] == HistoryTurn(history[k])
  {
    if history == [] then [] else [HistoryTurn(history[0])] + HistoryTurns(history[1..])
  }

  /** The turn of the new input: role user, an image part carrying the
      attachment's own media type when an attachment is given, then always
      a text part, even for empty text. */
  function CurrentTurn(newMessage: string, attachment: Option<Attachment>): (c: Content)
    ensures c.role == User
    ensures |c.parts| == if attachment.Some? then 2 else 1
    ensures c.parts[|c.parts| - 1] == Text(newMessage)
    ensures attachment.Some? ==>
              c.parts[0] == InlineData(attachment.value.mimeType, StripDataUrlPrefix(attachment.value.data))
  {
    var imagePart :=
      if attachment.Some? then [InlineData(attachment.value.mimeType, StripDataUrlPrefix(attachment.value.data))]
      else [];
    Content(User, imagePart + [Text(newMessage)])
  }

  /** The contents sent to the model: the history turns, then the current turn. */
  function Request(history: seq<ChatMessage>, newMessage: string, attachment: Option<Attachment>): (r: seq<Content>)
    ensures |r| == |history| + 1
    ensures r[..|history|] == HistoryTurns(history)
    ensures r[|history|] == CurrentTurn(newMessage, attachment)
  {
    HistoryTurns(history) + [CurrentTurn(newMessage, attachment)]
  }

  /** The request has one turn per history message, in order and with the
      same roles, and ends with the user's current turn. */
  lemma RequestShape(history: seq<ChatMessage>, newMessage: string, attachment: Option<Attachment>)
    ensures |Request(history, newMessage, attachment)| == |history| + 1
    ensures forall k :: 0 <= k < |history| ==>
              Request(history, newMessage, attachment)[k] == HistoryTurn(history[k])
    ensures forall k :: 0 <= k < |history| ==>
              Request(history, newMessage, attachment)[k].role == history[k].role
    ensures Request(history, newMessage, attachment)[|history|] == CurrentTurn(newMessage, attachment)
    ensures Request(history, newMessage, attachment)[|history|].role == User
  {
  }

  /** Every image part of a history turn is labelled `image/png`. */
  lemma HistoryImagesArePng(history: seq<ChatMessage>, k: nat, j: nat)
    requires k < |history| && j < |HistoryTurns(history)[k].parts|
    requires HistoryTurns(history)[k].parts[j].InlineData?
    ensures j == 0 && HistoryTurns(history)[k].parts[j].mimeType == HistoryImageMimeType
  {
  }

  /** Builds the request as the source does, pushing parts and turns. */
  method BuildContents(history: seq<ChatMessage>, newMessage: string, attachment: Option<Attachment>)
    returns (contents: seq<Content>)
    ensures contents == Request(history, newMessage, attachment)
  {
    contents := HistoryTurns(history);
    var currentParts: seq<Part> := [];
    if attachment.Some? {
      var base64Data := StripDataUrlPrefix(attachment.value.data);
      currentParts := currentParts + [InlineData(attachment.value.mimeType, base64Data)];
    }
    currentParts := currentParts + [Text(newMessage)];
    assert currentParts == CurrentTurn(newMessage, attachment).parts;
    contents := contents + [Content(User, currentParts)];
  }

  /** The text of a chunk, an absent text read as empty. */
  function ChunkText(chunk: Option<string>): (t: string)
    ensures t == "" <==> !Truthy(chunk)
    ensures Truthy(chunk) ==> t == chunk.value
  {
    if chunk.Some? then chunk.value else ""
  }

  /** The whole text the service produced: all chunk texts, in order. */
  function StreamText(chunks: seq<Option<string>>): (t: string)
    ensures t == "" <==> forall k :: 0 <= k < |chunks| ==> !Truthy(chunks[k])
  {
    if chunks == [] then "" else StreamText(chunks[..|chunks| - 1]) + ChunkText(chunks[|chunks| - 1])
  }

  /** The texts handed to `onChunk`: those of the chunks whose text is
      present and not empty, in arrival order. */
  function ForwardedTexts(chunks: seq<Option<string>>): (r: seq<string>)
    ensures |r| <= |chunks|
    ensures forall k :: 0 <= k < |r| ==> r[k] != ""
  {
    if chunks == [] then []
    else
      var last := chunks[|chunks| - 1];
      ForwardedTexts(chunks[..|chunks| - 1]) + (if ChunkText(last) != "" then [last.value] else [])
  }

  /** Forwarding distributes over the arrival order: the chunks of a later
      stretch are forwarded after those of an earlier one. */
  lemma {:induction false} ForwardedTextsAppend(a: seq<Option<string>>, b: seq<Option<string>>)
    ensures ForwardedTexts(a + b) == ForwardedTexts(a) + ForwardedTexts(b)
    decreases |b|
  {
    if b == [] {
      assert a + b == a;
    } else {
      var b' := b[..|b| - 1];
      assert (a + b)[..|a + b| - 1] == a + b';
      ForwardedTextsAppend(a, b');
    }
  }

  /** Skipping empty chunks loses no text: the forwarded texts concatenate
      to the whole text of the stream. */
  lemma {:induction false} ForwardedTextsConcat(chunks: seq<Option<string>>)
    ensures Concat(ForwardedTexts(chunks)) == StreamText(chunks)
    decreases |chunks|
  {
    if chunks != [] {
      var init := chunks[..|chunks| - 1];
      var last := chunks[|chunks| - 1];
      var tail := if ChunkText(last) != "" then [last.value] else [];
      ForwardedTextsConcat(init);
      ConcatAppend(ForwardedTexts(init), tail);
      if tail == [] {
        assert Concat(tail) == "";
      } else {
        assert Concat(tail) == Concat([]) + last.value;
      }
    }
  }

  /** One more chunk forwards its text when it is present and not empty. */
  lemma ForwardedTextsStep(chunks: seq<Option<string>>, i: nat)
    requires i < |chunks|
    ensures ForwardedTexts(chunks[..i + 1])
         == ForwardedTexts(chunks[..i]) + if Truthy(chunks[i]) then [chunks[i].value] else []
  {
    assert chunks[..i + 1][..i] == chunks[..i];
  }

  /** The `for await` loop: hands on the text of each chunk, in arrival
      order, when it is present and not empty. */
  method ForwardChunks(chunks: seq<Option<string>>) returns (forwarded: seq<string>)
    ensures forwarded == ForwardedTexts(chunks)
  {
    forwarded := [];
    var i := 0;
    while i < |chunks|
      invariant i <= |chunks|
      invariant forwarded == ForwardedTexts(chunks[..i])
    {
      var text := chunks[i];
      ForwardedTextsStep(chunks, i);
      if text.Some? && text.value != "" {
        forwarded := forwarded + [text.value];
      }
      i := i + 1;
    }
    assert chunks[..i] == chunks;
  }

  /** `streamResponse`: fails before any request or chunk when the API key
      is missing; otherwise sends `Request(...)`, hands every non-empty chunk
      text to `onChunk` in arrival order (returned here as `forwarded`), and
      ends with `ServiceError` after the chunks that preceded it, never as a
      chunk. */
  method StreamResponse(hasKey: bool, history: seq<ChatMessage>, newMessage: string,
                        attachment: Option<Attachment>, service: ServiceStream)
    returns (request: Option<seq<Content>>, forwarded: seq<string>, err: Option<StreamError>)
    ensures !hasKey ==> request == None && forwarded == [] && err == Some(MissingApiKey)
    ensures hasKey ==> request == Some(Request(history, newMessage, attachment))
    ensures hasKey ==> forwarded == ForwardedTexts(service.chunks)
    ensures hasKey ==> err == if service.fails then Some(ServiceError) else None
  {
    if !hasKey {
      return None, [], Some(MissingApiKey);
    }
    var contents := BuildContents(history, newMessage, attachment);
    request := Some(contents);
    forwarded := ForwardChunks(service.chunks);
    err := if service.fails then Some(ServiceError) else None;
  }
}
