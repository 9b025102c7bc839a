/** Vocabulary shared by the pages: an optional value and the two locales that
    every per-page `content` table is keyed by. */
module Common {

  datatype Option<+T> = None | Some(value: T)

  /** The two keys of every bilingual string table. */
  datatype Lang = En | Hi

  /** The language code a page receives as its `currentLanguage` prop. */
  function Code(l: Lang): (r: string)
    ensures |r| == 2 && r[0] in "eh"
  {
    match l
    case En => "en"
    case Hi => "hi"
  }

  /** Looking a language code up in a `content` table: the lookup hits for
      "en" and "hi" only, and then finds the table of that code. */
  function ParseLang(code: string): (r: Option<Lang>)
    ensures r.Some? <==> code == "en" || code == "hi"
    ensures r.Some? ==> Code(r.value) == code
  {
    if code == "en" then Some(En)
    else if code == "hi" then Some(Hi)
    else None
  }
}
