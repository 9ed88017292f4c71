/**
 * The incoming-message router: the `message` event handler and the
 * process-wide `lastProcessedAudio` slot it reads and overwrites.
 *
 * A message without media is ignored. A download that resolves to nothing,
 * or to media with empty data, gets a fixed retry reply. A MIME type starting with `image/` goes to the image requester; one
 * starting with `audio/` passes the size guard and then the duplicate guard
 * before the audio requester is called; every other type falls through.
 *
 * The MD5 digest of the payload is the function `hash`, fixed when the
 * router is created; the generative API is the parameter `generate` (see
 * module Requesters).
 */
module MessageRouter {
  import opened Wrappers
  import opened Requesters

  /** What `msg.downloadMedia()` yields: a MIME type and the base64 text of the payload. */
  datatype Media = Media(mimetype: string, data: string)

  datatype Kind = Image | Audio

  /** What the handler does with one message. */
  datatype Action =
    | Ignore
    | Reply(text: string)
    | CallRequester(kind: Kind, mime: string, data: string)

  /** The action together with the value of the dedup slot afterwards. */
  datatype Step = Step(action: Action, slot: Option<string>)

  /** What is observable outside the process: the requests sent to the API and the replies sent to the chat, in order. */
  datatype Effect = Effect(requests: seq<Request>, replies: seq<string>)

  const DownloadFailed: string := "Não consegui processar a imagem. Tente novamente."
  const AudioTooLarge: string := "Desculpe, só posso processar áudios de até 20MB."
  const AlreadyProcessed: string := "Este áudio já foi processado recentemente. Por favor, envie um novo áudio."

  /** The audio size limit, in characters of `media.data`. */
  const MaxAudioLength: nat := 20 * 1024 * 1024

  /** `s.startsWith(prefix)`, compared character by character. */
  function StartsWith(s: string, prefix: string): (r: bool)
    ensures r <==> |prefix| <= |s| && s[..|prefix|] == prefix
  {
    if prefix == [] then true
    else if s == [] then false
    else s[0] == prefix[0] && StartsWith(s[1..], prefix[1..])
  }

  /** A MIME type cannot start with both `image/` and `audio/`, so the order of the two tests never changes the outcome. */
  lemma ImageAndAudioExclusive(mime: string)
    ensures !(StartsWith(mime, "image/") && StartsWith(mime, "audio/"))
  {
  }

  /** `media.data.length / (1024 * 1024)`. The double division is exact here: a length is an integer far below 2^53 and the divisor a power of two. */
  function AudioSizeInMB(data: string): real
  {
    (|data| as real) / (1024.0 * 1024.0)
  }

  /** `audioSizeInMB > 20`: the same as more than 20 MiB worth of characters. */
  predicate TooLarge(data: string)
    ensures TooLarge(data) <==> |data| > MaxAudioLength
  {
    AudioSizeInMB(data) > 20.0
  }

  /**
   * The decision the `message` handler makes for one message, given the slot
   * before it. `download` is what `downloadMedia()` yielded; it is consulted
   * only when the message has media.
   */
  function Decide(slot: Option<string>, hasMedia: bool, download: Option<Media>, hash: string -> string): (s: Step)
    // the requester sees exactly the downloaded, non-empty payload
    ensures s.action.CallRequester? ==>
      hasMedia && download == Some(Media(s.action.mime, s.action.data)) && s.action.data != ""
    // the image test comes first; audio is forwarded only with an audio type
    ensures s.action.CallRequester? ==>
      (s.action.kind == Image <==> StartsWith(s.action.mime, "image/"))
      && (s.action.kind == Audio ==> StartsWith(s.action.mime, "audio/"))
    // audio reaches the requester only within the size limit and when its hash is not the remembered one
    ensures s.action.CallRequester? && s.action.kind == Audio ==>
      !TooLarge(s.action.data) && slot != Some(hash(s.action.data))
    // the slot changes exactly when audio is forwarded, and then holds that audio's hash
    ensures s.slot != slot <==> s.action.CallRequester? && s.action.kind == Audio
    ensures s.action.CallRequester? && s.action.kind == Audio ==> s.slot == Some(hash(s.action.data))
  {
    if !hasMedia then Step(Ignore, slot)
    else if download.None? || download.value.data == "" then Step(Reply(DownloadFailed), slot)
    else
      var media := download.value;
      if StartsWith(media.mimetype, "image/") then
        Step(CallRequester(Image, media.mimetype, media.data), slot)
      else if StartsWith(media.mimetype, "audio/") then
        if TooLarge(media.data) then Step(Reply(AudioTooLarge), slot)
        else
          var audioHash := hash(media.data);
          if slot == Some(audioHash) then Step(Reply(AlreadyProcessed), slot)
          else Step(CallRequester(Audio, media.mimetype, media.data), Some(audioHash))
      else Step(Ignore, slot)
  }

  /** The request a requester of the given kind sends. */
  function RequestFor(kind: Kind, mime: string, data: string): Request
  {
    match kind
    case Image => ImageRequest(mime, data)
    case Audio => AudioRequest(mime, data)
  }

  /** The text a requester of the given kind returns. */
  function Describe(kind: Kind, generate: Request -> Generation, mime: string, data: string): string
  {
    match kind
    case Image => DescreveImagem(generate, data, mime)
    case Audio => DescreveAudio(generate, data, mime)
  }

  /**
   * Carrying out an action: a requester call sends one request and replies
   * with what the requester returned.
   */
  function Run(action: Action, generate: Request -> Generation): (e: Effect)
    // one reply for every message not ignored, never more
    ensures |e.requests| <= 1 && |e.replies| <= 1
    ensures e.replies == [] <==> action.Ignore?
    ensures e.requests != [] <==> action.CallRequester?
    ensures action.Reply? ==> e.replies == [action.text]
    // a requester call sends the request for its payload and relays the generated text or the fixed apology
    ensures action.CallRequester? ==>
      var req := RequestFor(action.kind, action.mime, action.data);
      e.requests == [req]
      && (generate(req) == Generated(e.replies[0])
          || (generate(req) == Failed && e.replies[0] == (if action.kind == Image then ImageApology else AudioApology)))
  {
    match action
    case Ignore => Effect([], [])
    case Reply(text) => Effect([], [text])
    case CallRequester(kind, mime, data) =>
      Effect([RequestFor(kind, mime, data)], [Describe(kind, generate, mime, data)])
  }

  /** The handler's whole observable effect on one message. */
  function Handle(slot: Option<string>, hasMedia: bool, download: Option<Media>,
                  hash: string -> string, generate: Request -> Generation): Effect
  {
    Run(Decide(slot, hasMedia, download, hash).action, generate)
  }

  /** The `message` handler with its `lastProcessedAudio` slot. */
  class Router {
    /** The content digest, fixed for the life of the process (MD5 hex in the source). */
    const hash: string -> string
    var last: Option<string>

    /** `let lastProcessedAudio = null` */
    constructor (hash: string -> string)
      ensures this.hash == hash && last == None
    {
      this.hash := hash;
      last := None;
    }

    /** `client.on('message', async msg => ...)`, run to completion. */
    method HandleMessage(hasMedia: bool, download: Option<Media>, generate: Request -> Generation)
      returns (effect: Effect)
      modifies this
      ensures last == Decide(old(last), hasMedia, download, hash).slot
      ensures effect == Handle(old(last), hasMedia, download, hash, generate)
    {
      if !hasMedia {
        return Effect([], []);
      }
      if download.None? || download.value.data == "" {
        return Effect([], [DownloadFailed]);
      }
      var media := download.value;
      if StartsWith(media.mimetype, "image/") {
        var descricao := DescreveImagem(generate, media.data, media.mimetype);
        return Effect([ImageRequest(media.mimetype, media.data)], [descricao]);
      } else if StartsWith(media.mimetype, "audio/") {
        if TooLarge(media.data) {
          return Effect([], [AudioTooLarge]);
        }
        var audioHash := hash(media.data);
        if last == Some(audioHash) {
          return Effect([], [AlreadyProcessed]);
        }
        last := Some(audioHash);
        var result := DescreveAudio(generate, media.data, media.mimetype);
        return Effect([AudioRequest(media.mimetype, media.data)], [result]);
      }
      effect := Effect([], []);
    }
  }

  // Per-message properties of the handler.

  /** No media: no reply, no request, slot untouched. */
  lemma NoMediaIgnored(slot: Option<string>, download: Option<Media>, hash: string -> string, generate: Request -> Generation)
    ensures Handle(slot, false, download, hash, generate) == Effect([], [])
    ensures Decide(slot, false, download, hash).slot == slot
  {
  }

  /** Nothing downloaded, or empty data: the fixed retry reply whatever the type, no request, slot untouched. */
  lemma FailedDownloadReplies(slot: Option<string>, download: Option<Media>, hash: string -> string, generate: Request -> Generation)
    requires download.None? || download.value.data == ""
    ensures Handle(slot, true, download, hash, generate) == Effect([], [DownloadFailed])
    ensures Decide(slot, true, download, hash).slot == slot
  {
  }

  /** An `image/` payload calls the image requester once and its text is the reply, whatever the slot holds. */
  lemma ImageForwarded(slot: Option<string>, media: Media, hash: string -> string, generate: Request -> Generation)
    requires media.data != "" && StartsWith(media.mimetype, "image/")
    ensures Handle(slot, true, Some(media), hash, generate)
         == Effect([ImageRequest(media.mimetype, media.data)], [DescreveImagem(generate, media.data, media.mimetype)])
    ensures Decide(slot, true, Some(media), hash).slot == slot
  {
  }

  /** Neither `image/` nor `audio/`: silently ignored. */
  lemma OtherTypeIgnored(slot: Option<string>, media: Media, hash: string -> string, generate: Request -> Generation)
    requires !StartsWith(media.mimetype, "image/") && !StartsWith(media.mimetype, "audio/")
    ensures Handle(slot, true, Some(media), hash, generate) == Effect([], if media.data == "" then [DownloadFailed] else [])
    ensures Decide(slot, true, Some(media), hash).slot == slot
  {
  }

  /** Oversized audio: the size reply, no request, slot untouched (the hash is never consulted). */
  lemma OversizedAudioRejected(slot: Option<string>, media: Media, hash: string -> string, generate: Request -> Generation)
    requires StartsWith(media.mimetype, "audio/") && |media.data| > MaxAudioLength
    ensures Handle(slot, true, Some(media), hash, generate) == Effect([], [AudioTooLarge])
    ensures Decide(slot, true, Some(media), hash).slot == slot
  {
    ImageAndAudioExclusive(media.mimetype);
  }

  /** In-limit audio whose hash is the remembered one: the duplicate reply, no request, slot untouched. */
  lemma DuplicateAudioRejected(slot: Option<string>, media: Media, hash: string -> string, generate: Request -> Generation)
    requires StartsWith(media.mimetype, "audio/") && media.data != "" && |media.data| <= MaxAudioLength
    requires slot == Some(hash(media.data))
    ensures Handle(slot, true, Some(media), hash, generate) == Effect([], [AlreadyProcessed])
    ensures Decide(slot, true, Some(media), hash).slot == slot
  {
    ImageAndAudioExclusive(media.mimetype);
  }

  /**
   * Any other in-limit audio: the slot takes its hash and the audio requester
   * is called once; the slot is set even when the requester only apologises.
   */
  lemma FreshAudioForwarded(slot: Option<string>, media: Media, hash: string -> string, generate: Request -> Generation)
    requires StartsWith(media.mimetype, "audio/") && media.data != "" && |media.data| <= MaxAudioLength
    requires slot != Some(hash(media.data))
    ensures Handle(slot, true, Some(media), hash, generate)
         == Effect([AudioRequest(media.mimetype, media.data)], [DescreveAudio(generate, media.data, media.mimetype)])
    ensures Decide(slot, true, Some(media), hash).slot == Some(hash(media.data))
  {
    ImageAndAudioExclusive(media.mimetype);
  }
}
