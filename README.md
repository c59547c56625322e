# rustranslator in Dafny

A model of `rustranslator`, a one-file Rust command-line tool that
translates a text between Japanese and English through the Google Cloud
Translation API (v3beta1). The model covers the whole of its logic apart
from the network and the process environment:

- `Languages` (`languages.dfy`): the `Lang` enum and its command-line tokens
  ("jp", "en"), `Lang::from` as `Parse`, and the inference of the source
  language as `Other`.
- `GoogleApi` (`google.dfy`): `TranslateError`, the wire codes
  (`language_text`), the request and response bodies, the endpoint URL of
  the `Google` client, the `Authorization` header, and `translate` itself.
- `Cli` (`cli.dfy`): the argument dispatch of `main` and the single
  translation it runs.
- `Outcomes` (`outcomes.dfy`): `Result`, `Option`, and `Outcome`, which
  makes each Rust panic an explicit `Panicked(Panic)` value.

The HTTP exchange is a parameter `exchange: HttpPost -> Reply`: given the
one POST request, it says whether sending failed, whether the reply failed
to decode, or what `GoogleResponseBody` was decoded. One might expect every
failure of a translation to come back as a `TranslateError`; the Rust code
does not do that, and the model follows the code:

- An empty `translations` list makes `GoogleResponseBody::text` panic on its
  `unwrap`. The model keeps that as `Panicked(EmptyTranslations)`; it does
  not turn it into a `TranslateError`.
- A failed send also panics, through the `unwrap` at src/main.rs:157. The
  model keeps that as `Panicked(TransportFailure(..))`; only a decoding
  failure becomes a `TranslateError`.
- "Two-argument form" in user terms means three entries of `args`, because
  `args[0]` is the program name. The model works on the whole vector.

## Model

| member | source | states |
|---|---|---|
| `Languages.Parse` | src/main.rs:67-75 | succeeds with `l` exactly when the token is `l`'s token ("jp" or "en", case-sensitive); every other string panics with `UnknownLang` carrying that string |
| `Languages.ParseInvertsToken` | src/main.rs:69-71 | parsing the token of a language gives it back, and any accepted string is that language's token |
| `Languages.ParseIsCaseSensitive` | src/main.rs:69-72 | "JP" and "EN" are rejected with `UnknownLang` |
| `Languages.Token` | src/main.rs:70-71 | the token of a language is the two-character string its match arm accepts: "jp" exactly for JP and "en" exactly for EN |
| `Languages.Other` | src/main.rs:12-15 | the inferred source differs from the target, and the two together are the whole language set |
| `Languages.OtherIsInvolution` | src/main.rs:12-15 | inferring twice gives back the original language |
| `GoogleApi.NewTranslateError` | src/main.rs:57-60 | the error's message is the given string, unchanged |
| `GoogleApi.LanguageText` | src/main.rs:96-101 | the wire code has two characters; it is "ja" exactly for JP and "en" exactly for EN |
| `GoogleApi.LangOfCode` | src/main.rs:96-101 | a wire code is recognised exactly when it is "ja" or "en" |
| `GoogleApi.LanguageTextRoundTrip` | src/main.rs:96-101 | reading back the wire code of a language gives that language, so the mapping is injective |
| `GoogleApi.TokenToWireCode` | src/main.rs:69-71 | "jp" parses and maps to "ja", "en" parses and maps to "en", and JP's wire code is not its token |
| `GoogleApi.NewRequestBody` | src/main.rs:89-95 | `contents` is exactly `[text]`, and the source and target codes read back as `from` and `to` |
| `GoogleApi.NewRequestBodyRoundTrip` | src/main.rs:89-95 | the text and both languages can be read back from the body, so different arguments give different bodies |
| `GoogleApi.ResponseText` | src/main.rs:109-111 | panics with `EmptyTranslations` exactly when the list is empty; otherwise returns the first entry's `translated_text` |
| `GoogleApi.ResponseTextIgnoresLaterEntries` | src/main.rs:109-111 | entries after the first never change the result |
| `GoogleApi.TranslateTextUrl` | src/main.rs:131-136 | the URL starts with "https://translate.googleapis.com/v3beta1/projects/", ends with ":translateText", and is exactly as long as prefix, project id and suffix together |
| `GoogleApi.TranslateTextUrlShape` | src/main.rs:131-136 | the URL is the fixed prefix, then the project id, then ":translateText", and its length is the sum of the three |
| `GoogleApi.ProjectIdOfUrlCharacterizes` | src/main.rs:131-136 | the project id read back from a client's URL is its own, and any URL that reads back is the URL of the id it holds |
| `GoogleApi.TranslateTextUrlInjective` | src/main.rs:131-136 | two clients share an endpoint only if they share a project id |
| `GoogleApi.Authorization` | src/main.rs:152 | the header is "Bearer " followed by the access token, unchanged |
| `GoogleApi.TranslatePost` | src/main.rs:147-154 | the request goes to the client's endpoint with its bearer header, and its body carries exactly the text and the two languages |
| `GoogleApi.Translate` | src/main.rs:141-164 | a failed send panics; an undecodable reply gives `Err` with message "error! " and the decoder's detail; a decoded reply gives `Ok` of its first translation, or panics if it has none |
| `GoogleApi.TranslateDependsOnlyOnReply` | src/main.rs:147-162 | two providers that answer the one request alike give the same result (one request, no retry) |
| `Cli.Dispatch` | src/main.rs:8-28 | with 3 arguments: text `args[1]`, target `args[2]`, source the other language, and an unknown target panics with `UnknownLang(args[2])`; with 4: target `args[2]`, source `args[3]`, an unknown target panics with `UnknownLang(args[2])` before the source is looked at, and a known target with an unknown source panics with `UnknownLang(args[3])`; any other count panics with `InvalidArguments` |
| `Cli.InferredSourceDiffersFromTarget` | src/main.rs:9-15 | in the 3-argument form the source is never the target: "en" gives JP, "jp" gives EN |
| `Cli.Run` | src/main.rs:8-29 | a dispatch panic is the outcome unchanged; otherwise the outcome is the one translation of the dispatched arguments |
| `Cli.RunFailsBeforeTranslating` | src/main.rs:26-28 | a bad argument vector panics whatever the provider would answer, so no translation is attempted |
| `Cli.InferredJapaneseToEnglish` | src/main.rs:9-16 | ("こんにちは", "en") infers Japanese, sends codes "ja" and "en", and returns "Hello" for a one-entry reply "Hello" |
| `Cli.ExplicitEnglishToJapanese` | src/main.rs:18-24 | ("Hello", "jp", "en") translates from English to Japanese with codes "en" and "ja" |

## Left out

- The `Translator` trait and its boxed future: the asynchronous plumbing has no logic of its own; `Translate` is a plain function of the client.
- `reqwest`, `tokio` and the network: the exchange is the parameter `exchange`, so transport behaviour, timeouts and cancellation are not modelled.
- serde's JSON encoding and decoding: the bodies are plain records. On the wire the request keeps its snake_case field names (`source_language_code`, `target_language_code`), and only the response entry is renamed to camelCase (`translatedText`).
- `Google::new` reading `GOOGLE_PROJECT_ID` and `GOOGLE_ACCESS_TOKEN` from the environment, and its panics when they are unset: `Google` is built from two given strings. So the model also does not capture that `main` builds the client before it looks at the arguments.
- The `{:#?}` debug rendering of errors and of the argument vector: `DecodeFailed` and `SendFailed` carry the rendering as an opaque string, and `InvalidArguments` carries the vector itself.
- Printing the result or the error, and the `Ok(())` exit status in both cases (src/main.rs:31-40): output only.
