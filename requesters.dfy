/**
 * The two generative-content requesters, `descreveImagem` and `descreveAudio`.
 *
 * Each builds a single-turn multimodal request (one `user` content holding
 * the inline payload followed by a fixed instruction text), hands it to the
 * generative API and relays the response text. A failure of the API never
 * escapes: it becomes a fixed apology string.
 *
 * The API call `model.generateContent(...)` followed by `.response.text()` is
 * outside the model; it is the parameter `generate`, a function from the
 * request to either the generated text or a failure.
 */
module Requesters {
  import opened Wrappers

  /** One part of a content: inline binary data (base64 text) or plain text. */
  datatype Part = InlineData(mimeType: string, data: string) | Text(text: string)

  /** One turn of the conversation. */
  datatype Content = Content(role: string, parts: seq<Part>)

  /** The argument of `generateContent`. */
  datatype Request = Request(contents: seq<Content>)

  /** What the API gives back: the response text, or a thrown error. */
  datatype Generation = Generated(text: string) | Failed

  /** The fields a single-turn inline request is made of. */
  datatype InlineRequest = InlineRequest(mimeType: string, data: string, prompt: string)

  const ImagePrompt: string := "Descreva esta imagem em detalhes."
  const AudioPrompt: string :=
    "Transcreva o áudio de forma fiel, eliminando apenas elementos que não contribuem para o significado da mensagem, como hesitações e palavras de preenchimento. A pontuação original deve ser preservada."

  const ImageApology: string := "Desculpe, não consegui analisar a imagem."
  const AudioApology: string := "Desculpe, não consegui descrever o áudio."

  /**
   * Reads a request back: `Some` exactly when it is one `user` content whose
   * parts are an inline-data part followed by a text part.
   */
  function ParseRequest(r: Request): Option<InlineRequest>
  {
    if |r.contents| == 1 && r.contents[0].role == "user"
       && |r.contents[0].parts| == 2
       && r.contents[0].parts[0].InlineData? && r.contents[0].parts[1].Text?
    then
      var inline := r.contents[0].parts[0];
      Some(InlineRequest(inline.mimeType, inline.data, r.contents[0].parts[1].text))
    else None
  }

  /** The request shape shared by both requesters. */
  function BuildRequest(mimeType: string, data: string, prompt: string): (r: Request)
    ensures ParseRequest(r) == Some(InlineRequest(mimeType, data, prompt))
  {
    Request([Content("user", [InlineData(mimeType, data), Text(prompt)])])
  }

  /** A parsable request is the one BuildRequest makes from its fields: the shape has no other degree of freedom. */
  lemma BuildParsed(r: Request)
    requires ParseRequest(r).Some?
    ensures var f := ParseRequest(r).value; BuildRequest(f.mimeType, f.data, f.prompt) == r
  {
    var c := r.contents[0];
    assert c.parts == [c.parts[0], c.parts[1]];
    assert r.contents == [c];
  }

  function ImageRequest(mimeType: string, imgBase64: string): (r: Request)
    ensures ParseRequest(r) == Some(InlineRequest(mimeType, imgBase64, ImagePrompt))
  {
    BuildRequest(mimeType, imgBase64, ImagePrompt)
  }

  function AudioRequest(mimeType: string, audioBase64: string): (r: Request)
    ensures ParseRequest(r) == Some(InlineRequest(mimeType, audioBase64, AudioPrompt))
  {
    BuildRequest(mimeType, audioBase64, AudioPrompt)
  }

  /** `descreveImagem(imgBase64, mimeType)`: the response text, or the apology on any failure. */
  function DescreveImagem(generate: Request -> Generation, imgBase64: string, mimeType: string): (r: string)
    ensures generate(ImageRequest(mimeType, imgBase64)) == Failed ==> r == ImageApology
    ensures generate(ImageRequest(mimeType, imgBase64)) == Generated(r) || r == ImageApology
    ensures generate(ImageRequest(mimeType, imgBase64)).Generated? ==> r == generate(ImageRequest(mimeType, imgBase64)).text
  {
    match generate(ImageRequest(mimeType, imgBase64))
    case Generated(text) => text
    case Failed => ImageApology
  }

  /** `descreveAudio(audioBase64, mimeType)`: the response text, or the apology on any failure. */
  function DescreveAudio(generate: Request -> Generation, audioBase64: string, mimeType: string): (r: string)
    ensures generate(AudioRequest(mimeType, audioBase64)) == Failed ==> r == AudioApology
    ensures generate(AudioRequest(mimeType, audioBase64)) == Generated(r) || r == AudioApology
    ensures generate(AudioRequest(mimeType, audioBase64)).Generated? ==> r == generate(AudioRequest(mimeType, audioBase64)).text
  {
    match generate(AudioRequest(mimeType, audioBase64))
    case Generated(text) => text
    case Failed => AudioApology
  }
}
