/**
 * The request building and response extraction around the generative-AI
 * provider: the theme-text prompt, the four asset prompts, the empty-text
 * check before JSON parsing, and the loop that picks the first inline image
 * out of an image response. The provider and `JSON.parse` are oracles passed
 * in as functions.
 */
module GeminiService {
  import opened Wrappers
  import opened JsText
  import opened Types

  /** What the two operations can throw. `ProviderFailure` stands for any error
      raised by the provider call itself; the other three are raised locally. */
  datatype ServiceError =
    | ProviderFailure(reason: string)
    | NoText          // the text response had no text or an empty one
    | MalformedJson   // `JSON.parse` threw
    | NoImageData     // no response part carried inline image data

  /** What a provider call can throw: only a `ProviderFailure`; the other
      errors are raised by this module after the call has returned. */
  type ProviderError = e: ServiceError | e.ProviderFailure? witness ProviderFailure("")

  // ---------------------------------------------------------------------
  // Theme text

  /** The theme-text prompt before the quoted topic, one piece per line of the template. */
  const ThemePromptIntro: string :=
    "\n" +
    "      Você é um especialista em design de eventos e branding.\n" +
    "      Crie um conceito de tema completo e criativo baseado no seguinte tópico: "

  /** The theme-text prompt after the quoted topic, one piece per line of the template. */
  const ThemePromptOutro: string :=
    ".\n" +
    "      \n" +
    "      Retorne APENAS um objeto JSON com a seguinte estrutura:\n" +
    "      - title: Um nome cativante para o tema.\n" +
    "      - description: Uma breve descrição da vibe e estética (max 2 frases).\n" +
    "      - colorPalette: Array com 5 códigos hexadecimais de cores que combinam.\n" +
    "      - musicPlaylist: Array com 5 sugestões de músicas ou estilos musicais.\n" +
    "      - eventIdeas: Array com 4 ideias de atividades para o evento.\n" +
    "      - decorationTips: Array com 4 dicas específicas de decoração.\n" +
    "    "

  /** The instruction sent to the text model: the topic appears verbatim,
      between double quotes, right after `ThemePromptIntro`. */
  function ThemeTextPrompt(topic: string): (p: string)
    ensures |p| == |ThemePromptIntro| + |topic| + 2 + |ThemePromptOutro|
    ensures p[|ThemePromptIntro|] == '"' && p[|ThemePromptIntro| + 1 + |topic|] == '"'
    ensures p[|ThemePromptIntro| + 1..|ThemePromptIntro| + 1 + |topic|] == topic
  {
    Quoted(ThemePromptIntro, topic, ThemePromptOutro)
  }

  /** `topic` between double quotes, with fixed text before and after. */
  function Quoted(before: string, topic: string, after: string): (p: string)
    ensures |p| == |before| + |topic| + 2 + |after|
    ensures p[|before|] == '"' && p[|before| + 1 + |topic|] == '"'
    ensures p[|before| + 1..|before| + 1 + |topic|] == topic
  {
    before + "\"" + topic + "\"" + after
  }

  /** Different topics give different theme-text prompts. */
  lemma ThemeTextPromptInjective(a: string, b: string)
    requires ThemeTextPrompt(a) == ThemeTextPrompt(b)
    ensures a == b
  {
    QuotedInjective(ThemePromptIntro, ThemePromptOutro, a, b);
  }

  /** With the text around it fixed, the quoted topic is determined. */
  lemma QuotedInjective(before: string, after: string, a: string, b: string)
    requires Quoted(before, a, after) == Quoted(before, b, after)
    ensures a == b
  {
    var n := |before| + 1;
    assert |a| == |b|;
    assert a == Quoted(before, a, after)[n..n + |a|];
  }

  /** The text response; `text` is absent when the model returned none. */
  datatype TextResponse = TextResponse(text: Option<string>)

  /** `generateThemeText(topic)`. The provider call receives the prompt built
      from `topic`; whatever it throws is rethrown unchanged. An absent or
      empty text is an error. Otherwise the text is handed to `parse`
      (`JSON.parse`), whose failure is rethrown and whose value is returned
      as it is, without any check of its shape. */
  function GenerateThemeText(
    topic: string,
    provider: string -> Result<TextResponse, ProviderError>,
    parse: string -> Option<ThemeTextData>): (r: Result<ThemeTextData, ServiceError>)
    ensures var reply := provider(ThemeTextPrompt(topic));
      && (reply.Failure? ==> r == Failure(reply.error))
      && (reply.Success? && !Truthy(reply.value.text) ==> r == Failure(NoText))
      && (r.Success? <==> reply.Success? && Truthy(reply.value.text)
                          && parse(reply.value.text.value).Some?)
      && (r.Success? ==> parse(reply.value.text.value) == Some(r.value))
      && ((reply.Success? && Truthy(reply.value.text) && parse(reply.value.text.value).None?)
          ==> r == Failure(MalformedJson))
  {
    match provider(ThemeTextPrompt(topic))
    case Failure(e) => Failure(e)
    case Success(response) =>
      if !Truthy(response.text) then Failure(NoText)
      else
        match parse(response.text.value)
        case None => Failure(MalformedJson)
        case Some(data) => Success(data)
  }

  // ---------------------------------------------------------------------
  // Asset images

  /** The part of each asset prompt before the topic. Each is written as its
      first two words and the rest: the first two words are what tell the
      four templates apart (see `AssetPromptHeadsDiffer`). */
  function AssetPromptHead(t: AssetType): string {
    match t
    case Invitation => "Um convite " + "de evento elegante e moderno com o tema: "
    case Shirt => "Uma estampa " + "de camiseta (t-shirt design) vetorial e criativa com o tema: "
    case Flag => "Uma bandeira " + "oficial simbolizando o tema: "
    case Decoration => "Um cenário " + "de decoração de festa com o tema: "
  }

  /** The part of each asset prompt after the topic, written one
      comma-separated phrase at a time: the verifier computes the length of a
      literal character by character, and short pieces keep that cheap. */
  function AssetPromptTail(t: AssetType): string {
    match t
    case Invitation =>
      ". Design gráfico de alta qualidade, " + "tipografia legível, " + "layout profissional."
    case Shirt =>
      ". Fundo branco, " + "cores vibrantes, " + "estilo merchandise moderno, " + "isolado."
    case Flag =>
      ". Design vexilológico, " + "sem texto, " + "cores distintas, " + "flutuando no vento, " + "alta resolução."
    case Decoration =>
      ". Iluminação ambiente, " + "design de interiores imersivo, " + "detalhes temáticos, " + "foto realista."
  }

  /** The `switch` in `generateAssetImage`: each kind has its own template,
      and the topic appears verbatim between the template's head and tail. */
  function AssetPrompt(topic: string, t: AssetType): (p: string)
    ensures |p| == |AssetPromptHead(t)| + |topic| + |AssetPromptTail(t)|
    ensures p[..|AssetPromptHead(t)|] == AssetPromptHead(t)
    ensures p[|AssetPromptHead(t)|..|AssetPromptHead(t)| + |topic|] == topic
  {
    AssetPromptHead(t) + topic + AssetPromptTail(t)
  }

  /** The heads of two kinds differ in their third or fifth character. */
  lemma AssetPromptHeadsDiffer(a: AssetType, b: AssetType) returns (k: nat)
    requires a != b
    ensures k == 2 || k == 4
    ensures k < |AssetPromptHead(a)| && k < |AssetPromptHead(b)|
    ensures AssetPromptHead(a)[k] != AssetPromptHead(b)[k]
  {
    assert AssetPromptHead(Invitation)[2] == ' ' && AssetPromptHead(Invitation)[4] == 'o';
    assert AssetPromptHead(Shirt)[2] == 'a' && AssetPromptHead(Shirt)[4] == 'e';
    assert AssetPromptHead(Flag)[2] == 'a' && AssetPromptHead(Flag)[4] == 'b';
    assert AssetPromptHead(Decoration)[2] == ' ' && AssetPromptHead(Decoration)[4] == 'e';
    k := if AssetPromptHead(a)[2] != AssetPromptHead(b)[2] then 2 else 4;
  }

  /** For one topic the four kinds send four different prompts. */
  lemma AssetPromptsDistinct(topic: string, a: AssetType, b: AssetType)
    requires a != b
    ensures AssetPrompt(topic, a) != AssetPrompt(topic, b)
  {
    var k := AssetPromptHeadsDiffer(a, b);
    FramedDiffer(AssetPromptHead(a), AssetPromptHead(b), topic, AssetPromptTail(a), AssetPromptTail(b), k);
  }

  /** Texts whose heads differ at some position differ, whatever follows. */
  lemma FramedDiffer(h1: string, h2: string, topic: string, t1: string, t2: string, k: nat)
    requires k < |h1| && k < |h2| && h1[k] != h2[k]
    ensures h1 + topic + t1 != h2 + topic + t2
  {
    assert (h1 + topic + t1)[k] == h1[k];
    assert (h2 + topic + t2)[k] == h2[k];
  }

  /** For one kind, different topics give different prompts. */
  lemma AssetPromptInjective(t: AssetType, a: string, b: string)
    requires AssetPrompt(a, t) == AssetPrompt(b, t)
    ensures a == b
  {
    FramedInjective(AssetPromptHead(t), AssetPromptTail(t), a, b);
  }

  /** With the text around it fixed, the text in the middle is determined. */
  lemma FramedInjective(head: string, tail: string, a: string, b: string)
    requires head + a + tail == head + b + tail
    ensures a == b
  {
    var n := |head|;
    assert |a| == |b|;
    assert a == (head + a + tail)[n..n + |a|];
  }

  /** Inline binary data of a response part; the SDK types both fields as optional. */
  datatype InlineData = InlineData(mimeType: Option<string>, data: Option<string>)

  /** A content part; parts without inline data (text parts) have `inlineData` absent. */
  datatype Part = Part(inlineData: Option<InlineData>)

  datatype Content = Content(parts: Option<seq<Part>>)

  datatype Candidate = Candidate(content: Option<Content>)

  /** The image response, as far as the extraction reads it. */
  datatype ImageResponse = ImageResponse(candidates: Option<seq<Candidate>>)

  /** `response.candidates?.[0]?.content?.parts || []`: the parts of the first
      candidate, or no parts when anything on the way is missing. */
  function ResponseParts(response: ImageResponse): (parts: seq<Part>)
    ensures response.candidates.None? || response.candidates == Some([]) ==> parts == []
    ensures parts != [] ==>
      && response.candidates.Some? && response.candidates.value != []
      && response.candidates.value[0].content.Some?
      && response.candidates.value[0].content.value.parts == Some(parts)
  {
    match response.candidates
    case None => []
    case Some(candidates) =>
      if candidates == [] then []
      else match candidates[0].content
        case None => []
        case Some(content) =>
          match content.parts
          case None => []
          case Some(parts) => parts
  }

  /** `part.inlineData && part.inlineData.data`: inline data is present and
      its payload is a non-empty string. */
  predicate HasImageData(p: Part): (has: bool)
    ensures p.inlineData.None? ==> !has
    ensures p.inlineData.Some? && p.inlineData.value.data == Some("") ==> !has
    ensures p.inlineData.Some? && p.inlineData.value.data.Some? && p.inlineData.value.data.value != "" ==> has
  {
    p.inlineData.Some? && Truthy(p.inlineData.value.data)
  }

  /** A template-literal hole: an absent value is rendered as "undefined". */
  function TemplateText(s: Option<string>): (t: string)
    ensures s.Some? ==> t == s.value
    ensures t == "undefined" <==> s == None || s == Some("undefined")
  {
    match s
    case Some(v) => v
    case None => "undefined"
  }

  /** `data:${mimeType};base64,${data}`. */
  function DataUri(d: InlineData): (uri: string)
    requires d.data.Some?
    ensures |uri| > 5 + |d.data.value| && uri[..5] == "data:"
    ensures uri[|uri| - |d.data.value|..] == d.data.value
  {
    "data:" + TemplateText(d.mimeType) + ";base64," + d.data.value
  }

  /** `i` is the index of the first part carrying image data. */
  ghost predicate FirstImagePart(parts: seq<Part>, i: int) {
    && 0 <= i < |parts|
    && HasImageData(parts[i])
    && forall j :: 0 <= j < i ==> !HasImageData(parts[j])
  }

  /** What extracting an image from `parts` must give: success exactly when
      some part carries image data, and then the data URI of the first such
      part; otherwise the "no image data" error. */
  ghost predicate ExtractsImage(parts: seq<Part>, r: Result<string, ServiceError>) {
    && (r.Success? <==> exists i :: 0 <= i < |parts| && HasImageData(parts[i]))
    && (r.Success? ==> exists i :: FirstImagePart(parts, i) && r.value == DataUri(parts[i].inlineData.value))
    && (r.Failure? ==> r.error == NoImageData)
  }

  /** The extraction loop of `generateAssetImage`, with its early return and
      the throw after it. */
  method ExtractImage(response: ImageResponse) returns (r: Result<string, ServiceError>)
    ensures ExtractsImage(ResponseParts(response), r)
  {
    var parts := ResponseParts(response);
    for k := 0 to |parts|
      invariant forall j :: 0 <= j < k ==> !HasImageData(parts[j])
    {
      var part := parts[k];
      if part.inlineData.Some? && Truthy(part.inlineData.value.data) {
        assert FirstImagePart(parts, k);
        return Success(DataUri(part.inlineData.value));
      }
    }
    return Failure(NoImageData);
  }

  /** `ExtractsImage` leaves no choice: at most one result satisfies it. */
  lemma ExtractionUnique(parts: seq<Part>, r1: Result<string, ServiceError>, r2: Result<string, ServiceError>)
    requires ExtractsImage(parts, r1) && ExtractsImage(parts, r2)
    ensures r1 == r2
  {
    if r1.Success? {
      var i1 :| FirstImagePart(parts, i1) && r1.value == DataUri(parts[i1].inlineData.value);
      var i2 :| FirstImagePart(parts, i2) && r2.value == DataUri(parts[i2].inlineData.value);
      assert !(i1 < i2) && !(i2 < i1);
    }
  }

  /** A successful extraction is always a data URI, hence never empty. */
  lemma ExtractedImageIsDataUri(parts: seq<Part>, r: Result<string, ServiceError>)
    requires ExtractsImage(parts, r) && r.Success?
    ensures |r.value| > 5 && r.value[..5] == "data:"
  {
    var i :| FirstImagePart(parts, i) && r.value == DataUri(parts[i].inlineData.value);
  }

  /** Parts after the first image part do not matter. */
  lemma LaterPartsIgnored(parts: seq<Part>, i: int, rest: seq<Part>)
    requires FirstImagePart(parts, i)
    ensures FirstImagePart(parts[..i + 1] + rest, i)
    ensures (parts[..i + 1] + rest)[i] == parts[i]
  {
    var p := parts[..i + 1] + rest;
    forall j | 0 <= j <= i ensures p[j] == parts[j] {
    }
  }

  /** `generateAssetImage(topic, assetType)`. The provider receives the
      kind's prompt; whatever it throws is rethrown unchanged, otherwise the
      result is the extraction from its response. */
  method GenerateAssetImage(
    topic: string,
    t: AssetType,
    provider: string -> Result<ImageResponse, ProviderError>) returns (r: Result<string, ServiceError>)
    ensures provider(AssetPrompt(topic, t)).Failure? ==> r == Failure(provider(AssetPrompt(topic, t)).error)
    ensures provider(AssetPrompt(topic, t)).Success? ==>
              ExtractsImage(ResponseParts(provider(AssetPrompt(topic, t)).value), r)
  {
    var prompt := AssetPrompt(topic, t);
    match provider(prompt)
    case Failure(e) =>
      r := Failure(e);
    case Success(response) =>
      r := ExtractImage(response);
  }
}
