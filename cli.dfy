/** The command-line driver (`main`): how the argument vector is turned
    into the text, the target and the source language, and how the one
    translation is then run. Printing the outcome is not modelled.
 */
module Cli {
  import opened Outcomes
  import opened Languages
  import opened GoogleApi

  /** The arguments of the one translation `main` performs. */
  datatype Invocation = Invocation(text: string, from: Lang, to: Lang)

  /** The match on `args.len()` in `main`. `args[0]` is the program name.
      With three arguments the target is `args[2]` and the source is the
      other language; with four the target is `args[2]` and the source
      `args[3]`, parsed in that order; any other count panics. */
  function Dispatch(args: seq<string>): (r: Outcome<Invocation>)
    ensures |args| != 3 && |args| != 4 ==> r == Panicked(InvalidArguments(args))
    ensures |args| == 3 ==>
              && (r.Done? <==> Parse(args[2]).Done?)
              && (Parse(args[2]).Panicked? ==> r == Panicked(UnknownLang(args[2])))
              && (r.Done? ==> r.value == Invocation(args[1], Other(r.value.to), r.value.to)
                              && Token(r.value.to) == args[2])
    ensures |args| == 4 ==>
              && (r.Done? <==> Parse(args[2]).Done? && Parse(args[3]).Done?)
              && (r.Done? ==> r.value.text == args[1]
                              && Token(r.value.to) == args[2]
                              && Token(r.value.from) == args[3])
              && (Parse(args[2]).Panicked? ==> r == Panicked(UnknownLang(args[2])))
              && (Parse(args[2]).Done? && Parse(args[3]).Panicked? ==>
                    r == Panicked(UnknownLang(args[3])))
    ensures r.Panicked? ==> r.panic.InvalidArguments? || r.panic.UnknownLang?
  {
    if |args| == 3 then
      match Parse(args[2])
      case Panicked(p) => Panicked(p)
      case Done(to) => Done(Invocation(args[1], Other(to), to))
    else if |args| == 4 then
      match Parse(args[2])
      case Panicked(p) => Panicked(p)
      case Done(to) =>
        match Parse(args[3])
        case Panicked(p) => Panicked(p)
        case Done(from) => Done(Invocation(args[1], from, to))
    else
      Panicked(InvalidArguments(args))
  }

  /** In the three-argument form the source is never the target. */
  lemma InferredSourceDiffersFromTarget(args: seq<string>)
    requires |args| == 3 && Dispatch(args).Done?
    ensures Dispatch(args).value.from != Dispatch(args).value.to
    ensures args[2] == "en" ==> Dispatch(args).value.from == JP
    ensures args[2] == "jp" ==> Dispatch(args).value.from == EN
  {
  }

  /** `main` after the client is built: dispatch on the arguments, then
      translate once. */
  function Run(g: Google, args: seq<string>, exchange: HttpPost -> Reply)
    : (r: Outcome<Result<string, TranslateError>>)
    ensures Dispatch(args).Panicked? ==> r == Panicked(Dispatch(args).panic)
    ensures Dispatch(args).Done? ==>
              var inv := Dispatch(args).value;
              r == Translate(g, inv.text, inv.from, inv.to, exchange)
  {
    match Dispatch(args)
    case Panicked(p) => Panicked(p)
    case Done(inv) => Translate(g, inv.text, inv.from, inv.to, exchange)
  }

  /** A wrong argument vector fails before any request is made: the outcome
      is the same whatever the provider would have answered. */
  lemma RunFailsBeforeTranslating(g: Google, args: seq<string>,
                                  e1: HttpPost -> Reply, e2: HttpPost -> Reply)
    requires Dispatch(args).Panicked?
    ensures Run(g, args, e1) == Run(g, args, e2)
    ensures Run(g, args, e1).Panicked?
  {
  }

  /** ("こんにちは", "en"): the source is inferred as Japanese, so the request
      carries the wire codes "ja" and "en", and a reply of one translation
      "Hello" makes the run return "Hello". */
  lemma InferredJapaneseToEnglish(g: Google, exchange: HttpPost -> Reply)
    requires exchange(TranslatePost(g, "こんにちは", JP, EN))
             == Decoded(GoogleResponseBody([GoogleResponseTranslation("Hello")]))
    ensures Dispatch(["translator", "こんにちは", "en"]) == Done(Invocation("こんにちは", JP, EN))
    ensures TranslatePost(g, "こんにちは", JP, EN).body
            == GoogleRequestBody(["こんにちは"], "ja", "en")
    ensures Run(g, ["translator", "こんにちは", "en"], exchange) == Done(Ok("Hello"))
  {
  }

  /** ("Hello", "jp", "en"): target first, source second, so the request
      carries source "en" and target "ja". */
  lemma ExplicitEnglishToJapanese(g: Google)
    ensures Dispatch(["translator", "Hello", "jp", "en"]) == Done(Invocation("Hello", EN, JP))
    ensures TranslatePost(g, "Hello", EN, JP).body == GoogleRequestBody(["Hello"], "en", "ja")
  {
  }
}
