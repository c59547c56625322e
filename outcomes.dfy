/** What a step of the translator can end in.

    The Rust program has two kinds of failure: an ordinary `Result::Err`
    value that the caller receives, and a `panic!` (an explicit one, or an
    `unwrap` on an empty `Option` or an `Err`) that aborts the process.
    Both are modelled as values here, so that the verifier sees exactly
    where the program can abort and why.
 */
module Outcomes {

  /** Rust's `Result`, used for `TranslateResult = Result<String, TranslateError>`. */
  datatype Result<+T, +E> = Ok(value: T) | Err(error: E)

  /** A conventional optional value, used by the inverse (parsing) functions. */
  datatype Option<+T> = None | Some(value: T)

  /** The reasons the program can abort. */
  datatype Panic =
    /** `Lang::from` was given a token other than "jp" or "en". */
    | UnknownLang(token: string)
    /** `main` was given neither three nor four arguments. */
    | InvalidArguments(args: seq<string>)
    /** The provider's response held no translation; `get(0).unwrap()` fails. */
    | EmptyTranslations
    /** The HTTP exchange itself failed; the `unwrap` on the sent request fails. */
    | TransportFailure(detail: string)

  /** Either the step finished with a value, or the process panicked. */
  datatype Outcome<+T> = Done(value: T) | Panicked(panic: Panic)
}
