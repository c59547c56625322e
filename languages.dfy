/** The closed set of supported languages (`enum Lang`), the command-line
    tokens that name them, and how `main` infers the source language when
    only the target is given.
 */
module Languages {
  import opened Outcomes

  /** Japanese and English: the only two languages the translator knows. */
  datatype Lang = JP | EN

  /** The command-line token that names each language. */
  function Token(l: Lang): (t: string)
    ensures |t| == 2
    ensures t == "jp" <==> l == JP
    ensures t == "en" <==> l == EN
  {
    match l
    case JP => "jp"
    case EN => "en"
  }

  /** `Lang::from`: a case-sensitive exact match against the two tokens;
      any other string makes the program panic with "unknown lang". */
  function Parse(s: string): (r: Outcome<Lang>)
    ensures forall l: Lang :: r == Done(l) <==> s == Token(l)
    ensures r.Panicked? <==> s != "jp" && s != "en"
    ensures r.Panicked? ==> r.panic == UnknownLang(s)
  {
    if s == "jp" then Done(JP)
    else if s == "en" then Done(EN)
    else Panicked(UnknownLang(s))
  }

  /** The source language `main` infers from the target in its
      three-argument form: the other member of the two-language set. */
  function Other(l: Lang): (o: Lang)
    ensures o != l
    ensures {l, o} == {JP, EN}
  {
    match l
    case EN => JP
    case JP => EN
  }

  /** Inferring twice gives back the language one started from. */
  lemma OtherIsInvolution(l: Lang)
    ensures Other(Other(l)) == l
  {
  }

  /** Parsing is the inverse of `Token`, in both directions. */
  lemma ParseInvertsToken(l: Lang, s: string)
    ensures Parse(Token(l)) == Done(l)
    ensures Parse(s).Done? ==> Token(Parse(s).value) == s
  {
  }

  /** The match is case-sensitive: upper-case spellings are rejected. */
  lemma ParseIsCaseSensitive()
    ensures Parse("JP") == Panicked(UnknownLang("JP"))
    ensures Parse("EN") == Panicked(UnknownLang("EN"))
  {
  }
}
