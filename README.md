# Patricia: a verified model of the message router

Patricia is a WhatsApp bot. It answers images with a description and audio
with a transcription, both obtained from the Gemini generative API. It also
greets a group when it is added to one. Almost all of `patricia.js` is glue
between the messaging client and the API SDK. This project models the part
with its own logic:

- the `message` handler (module `MessageRouter`). It ignores messages without
  media and replies with a fixed retry text when the download resolves to
  nothing or to media with empty `data`. It sends
  `image/*` to the image describer. For `audio/*` it applies two guards in
  order: a 20 MiB size limit, then a duplicate check against the one
  remembered hash `lastProcessedAudio`. It ignores every other type. The
  handler is the class `Router`, whose one mutable field is the slot; the
  digest function is a constant fixed when the router is created. Its method
  `HandleMessage` has the source's early returns and is proved equal to the
  pure decision `Decide` followed by `Run`.
- the two requesters `descreveImagem` / `descreveAudio` (module `Requesters`).
  Each builds a request with one `user` content holding an inline-data part
  and then a fixed instruction. Each returns the generated text, or a fixed
  apology when the API fails.
- the single-slot dedup seen across a run of messages (module `AudioDedup`).
  After a run the slot holds the hash of the last audio that was sent out.
  Two audio payloads sent out one after the other never share a hash. The
  same audio twice in a row is suppressed, while A, B, A is sent out three
  times.
- the `group_join` greeter (module `Greeter`).

Outside collaborators are parameters, not code:

- `hash: string -> string` is the MD5 hex digest of `media.data`. It is a
  constant of the `Router`, given to its constructor, so one router uses one
  digest for its whole life.
- `generate: Request -> Generation` is `model.generateContent(...)` followed
  by `.response.text()`. It yields `Generated(text)`, or `Failed` when
  either step throws.
- The download result `Option<Media>` is what `msg.downloadMedia()` resolved
  to.

Points where the code does something other than one might expect, which the model follows:

- The size limit and the hash apply to `media.data`, which is the **base64
  text** of the payload, not its bytes. So the guard rejects audio whose base64
  text exceeds 20·1024·1024 characters (about 15 MiB of audio).
- `media.data.toString('base64')` (patricia.js:149) is called on a string. It
  returns the same string, so the audio requester receives `media.data`
  unchanged.
- The download-failure reply is the image text "Não consegui processar a
  imagem. Tente novamente." for every media type, audio included.
- This model covers `patricia.js` (audio handling, `group_join` trigger); the
  repository's other copy of the bot (no audio, `chat_added` trigger) is not
  modelled.

## Model

| member | source | states |
|---|---|---|
| `Requesters.BuildRequest` | patricia.js:51-68 | the request reads back as exactly one `user` content with the inline part (given MIME type, given data) followed by the instruction text |
| `Requesters.BuildParsed` | patricia.js:52-67 | conversely, every request of that shape is the one built from its three fields, so the shape has no other freedom |
| `Requesters.ImageRequest` | patricia.js:51-68 | the image request carries the given MIME type and data and the instruction "Descreva esta imagem em detalhes." |
| `Requesters.AudioRequest` | patricia.js:80-97 | the audio request carries the given MIME type and data and the fixed transcription instruction |
| `Requesters.DescreveImagem` | patricia.js:49-75 | no failure escapes: the result is the generated text on success and "Desculpe, não consegui analisar a imagem." on failure |
| `Requesters.DescreveAudio` | patricia.js:78-104 | no failure escapes: the result is the generated text on success and "Desculpe, não consegui descrever o áudio." on failure |
| `MessageRouter.StartsWith` | patricia.js:123-131 | `startsWith` holds exactly when the prefix is no longer than the string and equals its leading part |
| `MessageRouter.ImageAndAudioExclusive` | patricia.js:123-131 | no MIME type starts with both `image/` and `audio/`, so testing `image/` first never changes the outcome |
| `MessageRouter.TooLarge` | patricia.js:133-134 | `length / (1024*1024) > 20` holds exactly when the length exceeds 20971520 |
| `MessageRouter.Decide` | patricia.js:115-161 | the requester sees only the downloaded non-empty payload; requester kind matches the MIME prefix with `image/` taking precedence; audio is forwarded only within the limit and when its hash differs from the slot; the slot changes exactly when audio is forwarded, and then to that audio's hash |
| `MessageRouter.Run` | patricia.js:123-159 | at most one request and one reply; a reply for every message not ignored; a requester call sends the request for its payload and replies with the generated text or the kind's apology |
| `MessageRouter.Router.constructor` | patricia.js:35 | the slot starts empty (`null`) and the digest is the one given |
| `MessageRouter.Router.HandleMessage` | patricia.js:115-161 | the new slot and the observable effect are those of `Decide` (with the router's digest) followed by `Run` on the old slot |
| `MessageRouter.NoMediaIgnored` | patricia.js:115-116 | without media: no reply, no request, slot unchanged |
| `MessageRouter.FailedDownloadReplies` | patricia.js:117-121 | nothing downloaded or empty data: the single fixed retry reply, no request, slot unchanged, for every media type |
| `MessageRouter.ImageForwarded` | patricia.js:123-126 | an `image/` payload sends exactly the image request and replies with the image requester's text verbatim; the slot is not consulted or changed |
| `MessageRouter.OtherTypeIgnored` | patricia.js:131-159 | a type that is neither `image/` nor `audio/`, with non-empty data, gets no reply and no request and leaves the slot (with empty data it gets the download reply) |
| `MessageRouter.OversizedAudioRejected` | patricia.js:133-137 | audio over the limit gets the size reply, no request, slot unchanged |
| `MessageRouter.DuplicateAudioRejected` | patricia.js:142-146 | in-limit audio whose hash is the remembered one gets the "já foi processado" reply, no request, slot unchanged |
| `MessageRouter.FreshAudioForwarded` | patricia.js:142-151 | any other in-limit audio sets the slot to its hash and sends exactly the audio request, replying with the requester's result, apology included |
| `AudioDedup.Replay` | patricia.js:143-147 | the definition of a run: the in-order fold of `Decide` over the messages, threading the slot, with one action per message (the run-level property is `ReplaySlotInvariant`) |
| `AudioDedup.SlotInvariantStep` | patricia.js:143-147 | one more handled message keeps that invariant, using only that the slot changes exactly when audio is forwarded and then to its hash |
| `AudioDedup.ReplaySlotInvariant` | patricia.js:143-147 | after any run the slot holds the hash of the last audio forwarded (unchanged if none); the first forwarded audio differs from the starting slot; consecutive forwarded audio payloads never share a hash |
| `AudioDedup.InLimitAudioStep` | patricia.js:133-150 | for in-limit audio the handler suppresses exactly when the hash equals the slot and otherwise forwards and stores the hash |
| `AudioDedup.ImageStep` | patricia.js:123-126 | a downloaded image is forwarded to the image requester and leaves the slot as it was |
| `AudioDedup.SameAudioTwice` | patricia.js:142-147 | the same new audio twice in a row: the first is forwarded, the second gets the duplicate reply |
| `AudioDedup.AlternatingAudioAllForwarded` | patricia.js:143-147 | A, then B with a different hash, then A: all three reach the audio requester and the slot ends at A's hash |
| `AudioDedup.ImageDoesNotResetSlot` | patricia.js:123-147 | A, an image, then A again: the image leaves the slot alone, so the second A is suppressed |
| `Greeter.Includes` | patricia.js:107 | `recipientIds.includes(id)` holds exactly when the id is in the list |
| `Greeter.OnGroupJoin` | patricia.js:106-111 | the welcome text is sent once, to the notification's chat, when the bot's own id is among the recipients, and nothing is sent otherwise |

## Left out

- The WhatsApp transport (client construction, local auth, QR display, `ready`, `initialize()`): external library I/O.
- The Gemini SDK and its sampling configuration (model name, temperature, token and top-p/top-k limits): configuration of an external service. The call itself is the parameter `generate`.
- MD5: the hash is the parameter `hash`. The dedup properties that need distinct payloads assume their hashes differ; nothing is proved about MD5.
- Base64 encoding: applied to a string that is already base64, so it is the identity, as described above.
- The floating-point division of the size test is modelled by exact real division. Doubles give the same result here, because lengths are integers below 2^53 and the divisor is a power of two.
- The `isPTT` flag and all console logging: no behavioural effect.
- Async scheduling: each handler runs to completion before the next event is handled.
- The two outer `catch` blocks of the `message` handler, with the replies "Ocorreu um erro ao analisar a imagem." and "Desculpe, ocorreu um erro ao processar o áudio.". Only a failing `reply()` or hash could reach them, because the requesters swallow their own errors. Sending replies and hashing are modelled as never failing.
- A rejected `downloadMedia()` (patricia.js:117) or `getChat()` (patricia.js:108): these calls are outside every `try`, so the handler ends with no reply and the rejection escapes. The model's download result is always a resolved value, and the greeter's chat lookup always succeeds.
- A `mimetype` that is missing: `Media` always carries a string MIME type.
- The unused `mime-types` import.
