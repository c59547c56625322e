/** The Google Cloud Translation client: its wire codes, the request and
    response bodies, the endpoint URL and the single translate call.
    The HTTP exchange itself (sending the request with `reqwest` and
    decoding the JSON reply with `serde`) is a parameter, `exchange`.
 */
module GoogleApi {
  import opened Outcomes
  import opened Languages

  /** `TranslateError`: one diagnostic message, nothing else. */
  datatype TranslateError = TranslateError(message: string)

  /** `TranslateError::new`: the message is stored as given. */
  function NewTranslateError(msg: string): (e: TranslateError)
    ensures e.message == msg
  {
    TranslateError(msg)
  }

  // ---------------------------------------------------------------------
  // Wire codes

  /** `GoogleRequestBody::language_text`: the ISO 639-1 code Google expects.
      The code for Japanese, "ja", is not the command-line token "jp". */
  function LanguageText(l: Lang): (code: string)
    ensures |code| == 2
    ensures code == "ja" <==> l == JP
    ensures code == "en" <==> l == EN
  {
    match l
    case JP => "ja"
    case EN => "en"
  }

  /** The inverse of `LanguageText`: which language a wire code names. */
  function LangOfCode(code: string): (r: Option<Lang>)
    ensures r.Some? <==> code == "ja" || code == "en"
  {
    if code == "ja" then Some(JP)
    else if code == "en" then Some(EN)
    else None
  }

  /** Every language has exactly one wire code, and reading it back gives
      the language: `LanguageText` is total and injective. */
  lemma LanguageTextRoundTrip(l: Lang, m: Lang)
    ensures LangOfCode(LanguageText(l)) == Some(l)
    ensures LanguageText(l) == LanguageText(m) ==> l == m
  {
  }

  /** Parsing a token and mapping it to its wire code gives "jp" to "ja"
      and "en" to "en"; the Japanese wire code is not its token. */
  lemma TokenToWireCode()
    ensures Parse("jp").Done? && LanguageText(Parse("jp").value) == "ja"
    ensures Parse("en").Done? && LanguageText(Parse("en").value) == "en"
    ensures LanguageText(JP) != Token(JP)
  {
  }

  // ---------------------------------------------------------------------
  // Request and response bodies

  /** `GoogleRequestBody`, before its JSON rendering (which keeps the
      snake_case field names: the struct has no `rename_all`). */
  datatype GoogleRequestBody = GoogleRequestBody(
    contents: seq<string>,
    sourceLanguageCode: string,
    targetLanguageCode: string)

  /** `GoogleRequestBody::new`: the text, unchanged, as the one element of
      `contents`, with the wire codes of the source and target languages. */
  function NewRequestBody(text: string, from: Lang, to: Lang): (body: GoogleRequestBody)
    ensures |body.contents| == 1 && body.contents[0] == text
    ensures LangOfCode(body.sourceLanguageCode) == Some(from)
    ensures LangOfCode(body.targetLanguageCode) == Some(to)
  {
    GoogleRequestBody([text], LanguageText(from), LanguageText(to))
  }

  /** Reading the text and the two languages back out of a request body. */
  function RequestArguments(body: GoogleRequestBody): (r: Option<(string, Lang, Lang)>)
    ensures r.Some? ==> |body.contents| == 1 && body.contents[0] == r.value.0
  {
    if |body.contents| == 1
       && LangOfCode(body.sourceLanguageCode).Some?
       && LangOfCode(body.targetLanguageCode).Some?
    then Some((body.contents[0],
               LangOfCode(body.sourceLanguageCode).value,
               LangOfCode(body.targetLanguageCode).value))
    else None
  }

  /** Building a request body loses nothing: the arguments can be read back,
      so different arguments always give different bodies. */
  lemma NewRequestBodyRoundTrip(text: string, from: Lang, to: Lang)
    ensures RequestArguments(NewRequestBody(text, from, to)) == Some((text, from, to))
  {
  }

  /** One entry of the response (`GoogleResponseTranslation`, whose JSON
      key is the camelCase `translatedText`). */
  datatype GoogleResponseTranslation = GoogleResponseTranslation(translatedText: string)

  /** `GoogleResponseBody`, after its JSON has been decoded. */
  datatype GoogleResponseBody = GoogleResponseBody(translations: seq<GoogleResponseTranslation>)

  /** `GoogleResponseBody::text`: the text of the first translation; the
      `unwrap` panics when there is none. */
  function ResponseText(body: GoogleResponseBody): (r: Outcome<string>)
    ensures r.Panicked? <==> |body.translations| == 0
    ensures r.Panicked? ==> r.panic == EmptyTranslations
    ensures r.Done? ==> r.value == body.translations[0].translatedText
  {
    if |body.translations| == 0 then Panicked(EmptyTranslations)
    else Done(body.translations[0].translatedText)
  }

  /** Only the first entry matters: whatever follows it is ignored. */
  lemma ResponseTextIgnoresLaterEntries(first: GoogleResponseTranslation, rest: seq<GoogleResponseTranslation>)
    ensures ResponseText(GoogleResponseBody([first] + rest)) == Done(first.translatedText)
  {
  }

  // ---------------------------------------------------------------------
  // The client

  /** `Google`: the project id and access token, fixed once constructed. */
  datatype Google = Google(projectId: string, accessToken: string)

  const URL_PREFIX: string := "https://translate.googleapis.com/v3beta1/projects/"
  const URL_SUFFIX: string := ":translateText"

  /** `Google::translate_text_url`: the project id between a fixed prefix
      and a fixed suffix. */
  function TranslateTextUrl(g: Google): (url: string)
    ensures |url| == |URL_PREFIX| + |g.projectId| + |URL_SUFFIX|
    ensures url[..|URL_PREFIX|] == URL_PREFIX
    ensures url[|url| - |URL_SUFFIX|..] == URL_SUFFIX
  {
    URL_PREFIX + g.projectId + URL_SUFFIX
  }

  /** The endpoint URL is exactly the fixed prefix, the project id, and the
      fixed suffix, in that order. */
  lemma TranslateTextUrlShape(g: Google)
    ensures var url := TranslateTextUrl(g);
      && |url| == |URL_PREFIX| + |g.projectId| + |URL_SUFFIX|
      && url[..|URL_PREFIX|] == URL_PREFIX
      && url[|URL_PREFIX|..|url| - |URL_SUFFIX|] == g.projectId
      && url[|url| - |URL_SUFFIX|..] == URL_SUFFIX
  {
  }

  /** Reading the project id back out of an endpoint URL. */
  function ProjectIdOfUrl(url: string): (r: Option<string>)
    ensures r.Some? ==> |url| == |URL_PREFIX| + |r.value| + |URL_SUFFIX|
  {
    if |url| >= |URL_PREFIX| + |URL_SUFFIX|
       && url[..|URL_PREFIX|] == URL_PREFIX
       && url[|url| - |URL_SUFFIX|..] == URL_SUFFIX
    then Some(url[|URL_PREFIX|..|url| - |URL_SUFFIX|])
    else None
  }

  /** A string is an endpoint URL exactly when it is the URL of the project
      id read back out of it. */
  lemma ProjectIdOfUrlCharacterizes(url: string, g: Google)
    ensures ProjectIdOfUrl(TranslateTextUrl(g)) == Some(g.projectId)
    ensures ProjectIdOfUrl(url).Some? ==>
              TranslateTextUrl(Google(ProjectIdOfUrl(url).value, g.accessToken)) == url
  {
  }

  /** Two clients use the same endpoint only if they have the same project id. */
  lemma TranslateTextUrlInjective(g: Google, h: Google)
    ensures TranslateTextUrl(g) == TranslateTextUrl(h) ==> g.projectId == h.projectId
  {
    TranslateTextUrlShape(g);
    TranslateTextUrlShape(h);
  }

  /** The value of the `Authorization` header: the token after "Bearer ". */
  function Authorization(g: Google): (header: string)
    ensures |header| == 7 + |g.accessToken|
    ensures header[..7] == "Bearer " && header[7..] == g.accessToken
  {
    "Bearer " + g.accessToken
  }

  /** The one POST request `translate` sends. */
  datatype HttpPost = HttpPost(url: string, authorization: string, body: GoogleRequestBody)

  /** What came back from the exchange: the request could not be completed,
      the reply did not decode as a `GoogleResponseBody` (with the debug
      rendering of the decoder's error), or the decoded reply. */
  datatype Reply =
    | SendFailed(detail: string)
    | DecodeFailed(detail: string)
    | Decoded(body: GoogleResponseBody)

  /** The request `translate` builds for its arguments. */
  function TranslatePost(g: Google, text: string, from: Lang, to: Lang): (post: HttpPost)
    ensures ProjectIdOfUrl(post.url) == Some(g.projectId)
    ensures post.authorization == Authorization(g)
    ensures RequestArguments(post.body) == Some((text, from, to))
  {
    ProjectIdOfUrlCharacterizes(TranslateTextUrl(g), g);
    NewRequestBodyRoundTrip(text, from, to);
    HttpPost(TranslateTextUrl(g), Authorization(g), NewRequestBody(text, from, to))
  }

  /** `Translator::translate` for `Google`: one POST, no retry. A failed send
      panics (`unwrap`); a reply that does not decode becomes a
      `TranslateError` reading "error! " and the decoder's message; a
      decoded reply yields its first translation, or panics if it has none. */
  function Translate(g: Google, text: string, from: Lang, to: Lang, exchange: HttpPost -> Reply)
    : (r: Outcome<Result<string, TranslateError>>)
    ensures var reply := exchange(TranslatePost(g, text, from, to));
      && (reply.SendFailed? ==> r == Panicked(TransportFailure(reply.detail)))
      && (reply.DecodeFailed? ==> r == Done(Err(TranslateError("error! " + reply.detail))))
      && (reply.Decoded? && |reply.body.translations| == 0 ==> r == Panicked(EmptyTranslations))
      && (reply.Decoded? && |reply.body.translations| > 0 ==>
            r == Done(Ok(reply.body.translations[0].translatedText)))
  {
    match exchange(TranslatePost(g, text, from, to))
    case SendFailed(detail) => Panicked(TransportFailure(detail))
    case DecodeFailed(detail) => Done(Err(NewTranslateError("error! " + detail)))
    case Decoded(body) =>
      match ResponseText(body)
      case Done(t) => Done(Ok(t))
      case Panicked(p) => Panicked(p)
  }

  /** The result depends on the exchange only through its answer to the one
      request sent: two providers that answer it alike give the same result. */
  lemma TranslateDependsOnlyOnReply(g: Google, text: string, from: Lang, to: Lang,
                                    e1: HttpPost -> Reply, e2: HttpPost -> Reply)
    requires e1(TranslatePost(g, text, from, to)) == e2(TranslatePost(g, text, from, to))
    ensures Translate(g, text, from, to, e1) == Translate(g, text, from, to, e2)
  {
  }
}
