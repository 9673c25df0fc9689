# Vision chat client: session controller and response streamer

A Dafny model of the core of a small browser chat client that talks to a
multimodal language model. The user types text, may stage one image, and
receives a reply that is streamed in as text chunks.

The model covers two parts.

- **The session controller** (`App.tsx`) is the class `ChatSession.Session`.
  Its fields are the component state: the message log `messages`, the input
  text `input`, the busy flag `isLoading` and the single staged image slot
  `attachedImage`. The send handler is split into the steps it goes through:
  - `BeginSend` checks the guard, appends the user message and a streaming
    placeholder, clears the input and the staged image, and sets the busy flag.
  - `OnChunk` appends one chunk to the placeholder.
  - `OnError` replaces the placeholder's text with the fixed error text.
  - `OnFinally` ends streaming and clears the busy flag.

  `DeliverChunks`, `FinishTurn` and `SendMessage` chain these steps into a
  whole turn. A ghost field names the placeholder of the turn in flight.
  The class invariant says that only that message may be streaming, that it
  is the last entry while the log is not empty (a clear may empty the log
  mid-turn), and that message ids are unique. The Markdown export is
  the pure function `ChatExport.ExportContent`.
- **The response streamer** (`services/geminiService.ts`) is the module
  `GeminiService`. It contains:
  - the projection of the history onto role-tagged turns, with an image
    part before a text part;
  - the current user turn;
  - the `split(',')[1] || data` data-URL stripping;
  - the forwarding of non-empty chunk texts;
  - the missing-key and service-error paths.

The model service is not modelled. Its response is an input: the chunks it
delivers, in arrival order, and whether it then raises an error. The
presence of the API key is a boolean. Message ids come from the clock in the
source; here the caller supplies them and must make them fresh and distinct.
User confirmation of a clear is a boolean argument.

Three behaviours of the code are worth naming:

- A history message with empty text and no image, such as a reply that
  streamed no text, becomes a turn with no parts
  (services/geminiService.ts:29-46). `HistoryTurn` and `EmptyReplyReplayed`
  model that.
- A chunk's text may be absent or empty, and such chunks are skipped
  (services/geminiService.ts:78-81). `ForwardedTexts` models that.
- A confirmed clear is allowed while a turn is in flight. The Clear button is
  only disabled when the log is empty. The later chunk updates then match no
  message. The log invariant allows an empty log during a turn.

## Model

| member | source | states |
|---|---|---|
| `ChatSession.SendBlocked` | App.tsx:56 | a send is refused while a turn is in flight, and otherwise exactly when the input is blank and no image is staged |
| `ChatSession.UserMessage` | App.tsx:58-63 | the user message carries the given id, the user role, the raw untrimmed input, not streaming; it has an image exactly when one is staged, namely the staged data without its media type |
| `ChatSession.Placeholder` | App.tsx:70-76 | the placeholder carries the given id, the model role, empty text, no image, and is streaming |
| `ChatSession.StreamImage` | App.tsx:84 | the streamer gets an image exactly when the user message's image is non-empty; it is that data, typed `image/png` |
| `ChatSession.ReplyText` | App.tsx:85-98 | the reply text is the error text when the key is missing or the service fails, and otherwise the concatenation of the forwarded chunk texts |
| `ChatSession.UserMessageReplayed` | services/geminiService.ts:28-60 | a user message with non-empty text, replayed as history in the next send, becomes the same turn it was sent as; its image is typed `image/png` both times |
| `ChatSession.EmptyReplyReplayed` | services/geminiService.ts:28-47 | a finished reply that streamed no text is replayed as a model turn with no parts |
| `ChatSession.AcceptsFileType` | components/ImageUploader.tsx:14 | a file is accepted exactly when its type starts with `image/` |
| `ChatSession.Session.Valid` | App.tsx:9-12 | the class invariant: the log invariant holds for the turn in flight, and the busy flag is set exactly while a turn is in flight |
| `ChatSession.Session.constructor` | App.tsx:9-12 | the session starts with an empty log, empty input, not busy, nothing staged |
| `ChatSession.Session.EditInput` | App.tsx:221 | typing replaces the input text and changes nothing else |
| `ChatSession.Session.SelectImage` | App.tsx:24-26 | selecting an image overwrites the single staged slot with that data and media type, so of two selections only the second remains; nothing else changes |
| `ChatSession.Session.OfferFile` | components/ImageUploader.tsx:13-22 | a file whose type does not start with `image/` leaves the staged slot unchanged; an image file is staged with its data URL and type |
| `ChatSession.Session.RemoveImage` | App.tsx:234 | removing the staged image empties the slot and changes nothing else |
| `ChatSession.Session.ClearChat` | App.tsx:28-34 | a confirmed clear empties the log, the staged image and the input; an unconfirmed clear changes nothing; the busy flag is kept either way |
| `ChatSession.Session.ExportChat` | App.tsx:36-42 | the exported document is `ExportContent` of the current log |
| `ChatSession.Session.BeginSend` | App.tsx:55-84 | a send with blank input and nothing staged, or while busy, changes nothing; otherwise the log gains exactly two messages: a user message with the raw untrimmed input and the staged image's data (its media type dropped), then the empty streaming model placeholder; the input and the staged image are cleared and the busy flag is set; the streamer is called with the log as it was before the send, the raw input, and the image, when non-empty, as `image/png` |
| `ChatSession.Session.OnChunk` | App.tsx:85-91 | a chunk is appended to the message with the placeholder id only, and the invariant is kept |
| `ChatSession.Session.OnError` | App.tsx:93-98 | on failure the placeholder's text becomes the error text, whatever was appended before; other messages are unchanged |
| `ChatSession.Session.OnFinally` | App.tsx:99-105 | afterwards the busy flag is clear, the placeholder stops streaming, and no message in the log is streaming |
| `ChatSession.Session.DeliverChunks` | App.tsx:81-92 | the chunk callbacks, applied in order, leave the placeholder's text extended by the concatenation of the chunks |
| `ChatSession.Session.FinishTurn` | App.tsx:80-106 | after the call the placeholder, still last, holds the reply text (all chunks on success, the error text on failure) and is not streaming; the busy flag is clear; the request sent is the projection of the call's history and input |
| `ChatSession.Session.SendMessage` | App.tsx:55-107 | a blocked send changes nothing and sends nothing; an accepted send leaves the old log plus the user message and the finished reply; the input and staged image are empty and the busy flag is clear; the request is built from the log before the send |
| `ChatLog.Apply` | App.tsx:86-105 | each placeholder rewrite keeps the id, role and image; a chunk is appended to the text, an error replaces it; only ending the stream changes the streaming flag, and it keeps the text |
| `ChatLog.UpdateById` | App.tsx:86-90 | the id-matched map keeps the log length and rewrites exactly the messages carrying the id |
| `ChatLog.LogInvariant` | App.tsx:65-105 | message ids are unique; only the placeholder of the turn in flight may be streaming; while a turn is in flight and the log is not empty, its last entry is that placeholder, a model message, streaming |
| `ChatLog.UpdateByIdHitsOne` | App.tsx:94-98 | with unique ids an update changes the one message carrying the id and no other |
| `ChatLog.UpdateByIdMiss` | App.tsx:101-105 | an update whose id is not in the log, as after a clear during a turn, changes nothing |
| `ChatLog.UpdateByIdKeepsIds` | App.tsx:86-90 | updates keep every id, so they keep the ids unique |
| `ChatLog.UpdateLast` | App.tsx:86-90 | when the updated id is the last message's, the log is the same front followed by the rewritten last message |
| `ChatLog.AtMostOneStreaming` | App.tsx:71-78 | under the log invariant any two streaming messages are the same one: the last, a model message, the placeholder of the turn in flight |
| `ChatLog.BeginKeepsInvariant` | App.tsx:65-78 | appending a user message and a streaming model placeholder under fresh distinct ids, with no turn in flight, starts a turn for the placeholder |
| `ChatLog.PatchKeepsInvariant` | App.tsx:86-98 | chunk and error rewrites of the placeholder keep the invariant |
| `ChatLog.EndStreamingEndsTurn` | App.tsx:101-105 | ending the placeholder's stream leaves no streaming message and no turn in flight |
| `ChatLog.UpdateTwice` | App.tsx:86-90 | two successive chunk appends to the same id equal one append of their concatenation |
| `ChatLog.FoldChunks` | App.tsx:85-91 | the chunk updates, applied in order, keep the log length and every message's id, role and streaming flag, and change nothing when the id is not in the log |
| `ChatLog.FoldChunksIsConcat` | App.tsx:85-91 | applying the chunk updates one by one, in order, equals appending the concatenation of all chunks once |
| `ChatExport.RoleLabel` | App.tsx:40 | the label is `用户` exactly for the user role and `模型` otherwise |
| `ChatExport.Section` | App.tsx:40-41 | a section starts with `### `, the role label and a newline, and ends with the message text and a newline |
| `ChatExport.Sections` | App.tsx:39-41 | one section per message, in log order |
| `ChatExport.ExportContent` | App.tsx:36-42 | an empty log exports nothing, and a non-empty log always exports a document |
| `ChatExport.ExportSingle` | App.tsx:39-42 | a one-message log exports as that message's section |
| `ChatExport.ExportAppend` | App.tsx:39-42 | appending a message to a non-empty log adds the separator and its section after the earlier export, unchanged |
| `ChatExport.ExportIgnoresImages` | App.tsx:39-42 | logs that agree on roles and texts export the same document: images, ids and streaming flags are omitted |
| `ChatExport.ExportExample` | App.tsx:36-42 | a user `Hi` followed by a model `Hello` exports both labelled sections in order, separated by the rule |
| `Strings.Concat` | App.tsx:85-91 | the chunks joined end to end, in order: the text the chunk appends build up |
| `Strings.StartsWith` | components/ImageUploader.tsx:14 | `startsWith`: the prefix is an initial segment of the string |
| `Strings.Join` | App.tsx:42 | the parts with the separator between neighbours: nothing for no parts, the part itself for one |
| `Strings.IsBlank` | App.tsx:56 | `input.trim()` is empty exactly when every character of the input is trimmable |
| `Strings.IsTrimmable` | App.tsx:56 | the characters `trim()` removes: the ECMAScript white-space and line-terminator characters |
| `ChatTypes.Truthy` | services/geminiService.ts:30 | an optional string is truthy exactly when it is present and not empty |
| `Strings.JoinCons` | App.tsx:42 | joining a head and a non-empty rest puts the separator between the head and the rest's join |
| `Strings.IndexOf` | services/geminiService.ts:32 | the index found holds the character and no earlier position does |
| `Strings.Split` | services/geminiService.ts:32 | splitting yields at least one field and no field contains the separator |
| `Strings.JoinSplit` | services/geminiService.ts:32 | joining the fields back with the separator gives the original string |
| `Strings.SplitAtFirst` | services/geminiService.ts:32 | splitting cuts at the first separator |
| `GeminiService.StripDataUrlPrefix` | services/geminiService.ts:32 | a string without a comma is returned unchanged; any other result is a non-empty, comma-free field |
| `GeminiService.FirstFieldOf` | services/geminiService.ts:52 | the first field of a comma-free payload followed by nothing or by `,more` is the payload |
| `GeminiService.StripDataUrlPrefixTakesPayload` | services/geminiService.ts:32 | for `prefix,payload[,more]` the result is the payload between the first and second comma when it is non-empty, and the whole string when it is empty |
| `GeminiService.HistoryTurn` | services/geminiService.ts:28-47 | a history turn keeps the role; it has an image part first iff the image is non-empty, with type `image/png` and stripped data; it has a text part last iff the text is non-empty; it has no parts iff both are empty |
| `GeminiService.HistoryTurns` | services/geminiService.ts:28-47 | one turn per history message, in order |
| `GeminiService.CurrentTurn` | services/geminiService.ts:50-60 | the current turn has role user and always ends with a text part, even for empty text; an image part with the attachment's own media type and stripped data comes first exactly when an attachment is given |
| `GeminiService.Request` | services/geminiService.ts:28-66 | the request is the history turns, in order, followed by the current turn |
| `GeminiService.RequestShape` | services/geminiService.ts:28-66 | the request has exactly one turn more than the history; the history turns come first, in order, with the same roles; the last turn is the user's current turn |
| `GeminiService.HistoryImagesArePng` | services/geminiService.ts:33-38 | every image part in a history turn comes first in its turn and is typed `image/png` |
| `GeminiService.BuildContents` | services/geminiService.ts:27-66 | building with pushes yields exactly the request |
| `GeminiService.ChunkText` | services/geminiService.ts:78 | a chunk's text reads as empty exactly when it is absent or empty, and is the text itself otherwise |
| `GeminiService.StreamText` | services/geminiService.ts:77-82 | the whole streamed text is empty exactly when no chunk has a non-empty text |
| `GeminiService.ForwardedTexts` | services/geminiService.ts:77-82 | no forwarded text is empty, and there are no more than there are chunks |
| `GeminiService.ForwardedTextsAppend` | services/geminiService.ts:77-82 | forwarding keeps arrival order: a later stretch of chunks is forwarded after an earlier one |
| `GeminiService.ForwardedTextsConcat` | services/geminiService.ts:77-82 | skipping empty or absent chunk texts loses nothing: the forwarded texts concatenate to the whole streamed text |
| `GeminiService.ForwardedTextsStep` | services/geminiService.ts:77-82 | one more chunk adds its text to the forwarded texts exactly when it is present and not empty |
| `GeminiService.ForwardChunks` | services/geminiService.ts:77-82 | the loop over the chunks hands on exactly the forwarded texts, in arrival order |
| `GeminiService.StreamResponse` | services/geminiService.ts:14-87 | without an API key the call fails before any request or chunk; with one it sends the request, forwards exactly the non-empty chunk texts in order, and ends with `ServiceError` after the chunks that preceded it, never as a chunk |

## Left out

- Rendering, styling and scrolling (App.tsx:14-22, 116-261) and all of `components/ChatBubble.tsx`. These are display only.
- The download plumbing of the export: the Blob, object URL, anchor element and dated file name (App.tsx:44-52). Only the document content is modelled.
- `window.confirm` in the clear handler. It is the `confirmed` argument.
- Reading files in `components/ImageUploader.tsx`: the FileReader and the drag, drop and paste events. `OfferFile` takes the resulting data URL as an argument.
- The Enter-key handler (App.tsx:109-114). It only calls the send handler.
- The model client: its construction, the network call, the model name, the system instruction and `console.error`. The service's answer is the `ServiceStream` input.
- The `process.env` lookup. It is the `hasKey` argument.
- `Date.now()` id generation. Ids are arguments that must be fresh and distinct.
- The unused `VisionState` type.
- The distinction between an absent `isStreaming` and `false`. Both read as `false`, as every consumer treats them.
- Strings.IsBlank: it uses the ECMAScript white-space and line-terminator set, with the space separators listed as of current Unicode. Later Unicode additions are not tracked.
- ChatSession.Session.SendMessage: it runs a turn without other handlers in between. In the source, a clear, an edit or an image selection may happen between two chunks. The step methods `OnChunk`, `OnError`, `OnFinally`, `ClearChat`, `EditInput` and `SelectImage` keep the invariant for any such interleaving, one step at a time.
- ChatSession.Session.FinishTurn: it requires the placeholder to be still the last message, so it does not cover a confirmed clear between `BeginSend` and the end of the turn, after which the reply updates match no message. The step methods cover that order one step at a time.
- React's batching of state updates. Each update is one step of the model, in program order.
