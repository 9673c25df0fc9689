/** The message log: the id-matched updates the session controller applies
    to it (`prev.map(msg => msg.id === id ? {...msg, ...} : msg)`), and the
    invariant that at most one message is streaming, namely the placeholder
    of the turn in flight, which is the last entry. */
module ChatLog {
  import opened ChatTypes
  import opened Strings

  /** The three rewrites of the placeholder: a streamed chunk is appended,
      the text is replaced by the error message, streaming ends. */
  datatype Patch = AppendText(chunk: string) | ReplaceText(text: string) | EndStreaming

  function Apply(m: ChatMessage, p: Patch): (r: ChatMessage)
    ensures r.id == m.id && r.role == m.role && r.image == m.image
    ensures !p.EndStreaming? ==> r.isStreaming == m.isStreaming
    ensures p.EndStreaming? ==> r.text == m.text && !r.isStreaming
    ensures p.AppendText? ==> r.text == m.text + p.chunk
    ensures p.ReplaceText? ==> r.text == p.text
  {
    match p
    case AppendText(chunk) => m.(text := m.text + chunk)
    case ReplaceText(text) => m.(text := text)
    case EndStreaming => m.(isStreaming := false)
  }

  /** Rewrites every message whose id is `id`; all others stay as they are. */
  function UpdateById(log: seq<ChatMessage>, id: MessageId, p: Patch): (r: seq<ChatMessage>)
    ensures |r| == |log|
    ensures forall k :: 0 <= k < |log| ==> r[k] == if log[k].id == id then Apply(log[k], p) else log[k]
  {
    if log == [] then []
    else [if log[0].id == id then Apply(log[0], p) else log[0]] + UpdateById(log[1..], id, p)
  }

  predicate HasId(log: seq<ChatMessage>, id: MessageId)
  {
    exists k :: 0 <= k < |log| && log[k].id == id
  }

  predicate UniqueIds(log: seq<ChatMessage>)
  {
    forall j, k :: 0 <= j < k < |log| ==> log[j].id != log[k].id
  }

  /** With unique ids an update hits exactly the one message carrying the id. */
  lemma UpdateByIdHitsOne(log: seq<ChatMessage>, id: MessageId, p: Patch, k: nat)
    requires UniqueIds(log) && k < |log| && log[k].id == id
    ensures UpdateById(log, id, p) == log[k := Apply(log[k], p)]
  {
  }

  /** An update whose id is not in the log changes nothing. */
  lemma UpdateByIdMiss(log: seq<ChatMessage>, id: MessageId, p: Patch)
    requires !HasId(log, id)
    ensures UpdateById(log, id, p) == log
  {
  }

  /** Updates keep every id, so they keep the ids unique. */
  lemma UpdateByIdKeepsIds(log: seq<ChatMessage>, id: MessageId, p: Patch)
    ensures forall k :: 0 <= k < |log| ==> UpdateById(log, id, p)[k].id == log[k].id
    ensures UniqueIds(log) ==> UniqueIds(UpdateById(log, id, p))
  {
  }

  /** When the last message carries the id and the ids are unique, only the
      last message changes. */
  lemma UpdateLast(front: seq<ChatMessage>, last: ChatMessage, p: Patch)
    requires UniqueIds(front + [last])
    ensures UpdateById(front + [last], last.id, p) == front + [Apply(last, p)]
  {
    UpdateByIdHitsOne(front + [last], last.id, p, |front|);
    assert (front + [last])[|front| := Apply(last, p)] == front + [Apply(last, p)];
  }

  /** The log invariant. `placeholder` is the id of the model message of the
      turn in flight, if any: only that message may be streaming, and while
      the turn lasts it is the last entry of a non-empty log. */
  ghost predicate LogInvariant(log: seq<ChatMessage>, placeholder: Option<MessageId>)
  {
    && UniqueIds(log)
    && (forall k :: 0 <= k < |log| && log[k].isStreaming ==> placeholder == Some(log[k].id))
    && (placeholder.Some? && log != [] ==>
          log[|log| - 1].id == placeholder.value && log[|log| - 1].role == Model && log[|log| - 1].isStreaming)
  }

  /** At most one message is streaming, and it is the last one, the model
      placeholder of the turn in flight. */
  lemma AtMostOneStreaming(log: seq<ChatMessage>, placeholder: Option<MessageId>, j: nat, k: nat)
    requires LogInvariant(log, placeholder)
    requires j < |log| && k < |log| && log[j].isStreaming && log[k].isStreaming
    ensures j == k == |log| - 1 && log[k].role == Model && placeholder == Some(log[k].id)
  {
  }

  /** With no turn in flight, appending a user message and a streaming model
      placeholder under fresh, distinct ids starts a turn for the placeholder. */
  lemma BeginKeepsInvariant(log: seq<ChatMessage>, user: ChatMessage, bot: ChatMessage)
    requires LogInvariant(log, None)
    requires user.id != bot.id && !HasId(log, user.id) && !HasId(log, bot.id)
    requires !user.isStreaming && bot.isStreaming && bot.role == Model
    ensures LogInvariant(log + [user, bot], Some(bot.id))
  {
  }

  /** Chunk and error rewrites of the placeholder keep the turn in flight. */
  lemma PatchKeepsInvariant(log: seq<ChatMessage>, id: MessageId, p: Patch)
    requires LogInvariant(log, Some(id)) && !p.EndStreaming?
    ensures LogInvariant(UpdateById(log, id, p), Some(id))
  {
    UpdateByIdKeepsIds(log, id, p);
  }

  /** Ending the placeholder's stream ends the turn: no message streams any more. */
  lemma EndStreamingEndsTurn(log: seq<ChatMessage>, id: MessageId)
    requires LogInvariant(log, Some(id))
    ensures LogInvariant(UpdateById(log, id, EndStreaming), None)
    ensures forall k :: 0 <= k < |log| ==> !UpdateById(log, id, EndStreaming)[k].isStreaming
  {
  }

  /** The log after each chunk of `chunks` was appended, in order, by its own
      id-matched update. */
  function FoldChunks(log: seq<ChatMessage>, id: MessageId, chunks: seq<string>): (r: seq<ChatMessage>)
    ensures |r| == |log|
    ensures forall k :: 0 <= k < |log| ==>
              r[k].id == log[k].id && r[k].role == log[k].role && r[k].isStreaming == log[k].isStreaming
    ensures !HasId(log, id) ==> r == log
  {
    if chunks == [] then log
    else UpdateById(FoldChunks(log, id, chunks[..|chunks| - 1]), id, AppendText(chunks[|chunks| - 1]))
  }

  lemma UpdateTwice(log: seq<ChatMessage>, id: MessageId, a: string, b: string)
    ensures UpdateById(UpdateById(log, id, AppendText(a)), id, AppendText(b)) == UpdateById(log, id, AppendText(a + b))
  {
    var r1 := UpdateById(log, id, AppendText(a));
    var r2 := UpdateById(r1, id, AppendText(b));
    var r := UpdateById(log, id, AppendText(a + b));
    forall k | 0 <= k < |log|
      ensures r2[k] == r[k]
    {
      if log[k].id == id {
        assert log[k].text + a + b == log[k].text + (a + b);
      }
    }
  }

  /** Appending the chunks one update at a time leaves the same log as
      appending their concatenation once. */
  lemma {:induction false} FoldChunksIsConcat(log: seq<ChatMessage>, id: MessageId, chunks: seq<string>)
    ensures FoldChunks(log, id, chunks) == UpdateById(log, id, AppendText(Concat(chunks)))
    decreases |chunks|
  {
    if chunks == [] {
      var r := UpdateById(log, id, AppendText(""));
      forall k | 0 <= k < |log|
        ensures r[k] == log[k]
      {
        assert log[k].text + "" == log[k].text;
      }
    } else {
      var init := chunks[..|chunks| - 1];
      FoldChunksIsConcat(log, id, init);
      UpdateTwice(log, id, Concat(init), chunks[|chunks| - 1]);
    }
  }
}
