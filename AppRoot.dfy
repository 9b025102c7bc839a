/** The application root (src/App.tsx): the `currentLanguage` state with its
    toggle, and the route table from paths to pages. */
module AppRoot {
  import opened Common

  /** The toggle's update function: "en" becomes "hi", and every other value,
      "hi" or not, becomes "en". */
  function ToggleLanguage(lang: string): (r: string)
    ensures ParseLang(r).Some?
    ensures r == "hi" <==> lang == "en"
  {
    if lang == "en" then "hi" else "en"
  }

  /** On the two reachable values the toggle is its own inverse. */
  lemma ToggleTwice(lang: string)
    requires ParseLang(lang).Some?
    ensures ToggleLanguage(ToggleLanguage(lang)) == lang
  {
  }

  /** Off those two values it is not: an unknown code goes to "en", then to "hi". */
  lemma ToggleTwiceElsewhere()
    ensures ToggleLanguage(ToggleLanguage("fr")) == "hi"
  {
  }

  class AppState {
    var currentLanguage: string

    /** Every `content[currentLanguage]` lookup of a page hits. */
    ghost predicate Valid()
      reads this
    {
      ParseLang(currentLanguage).Some?
    }

    constructor ()
      ensures Valid() && currentLanguage == "en"
    {
      currentLanguage := "en";
    }

    /** `handleLanguageToggle`: needs no precondition, and whatever the state
        was, afterwards it is one of the two known languages. */
    method HandleLanguageToggle()
      modifies this
      ensures Valid()
      ensures currentLanguage == ToggleLanguage(old(currentLanguage))
    {
      currentLanguage := ToggleLanguage(currentLanguage);
    }

    /** The locale every page indexes its string table with. */
    function Language(): (l: Lang)
      reads this
      requires Valid()
      ensures Code(l) == currentLanguage
    {
      ParseLang(currentLanguage).value
    }
  }

  /** The pages of the route table; `NotFound` is the catch-all `*` route. */
  datatype Page = Home | DocumentUpload | DocumentAnalysis | About | Help | Contact | NotFound

  /** The six routed paths, in the order the table declares them. */
  const RoutedPaths: seq<string> := ["/", "/upload", "/analysis", "/about", "/help", "/contact"]

  /** The path a page is declared under; the catch-all has none. */
  function PathOf(p: Page): (r: Option<string>)
    ensures r.None? <==> p == NotFound
    ensures r.Some? ==> r.value in RoutedPaths
  {
    match p
    case Home => Some("/")
    case DocumentUpload => Some("/upload")
    case DocumentAnalysis => Some("/analysis")
    case About => Some("/about")
    case Help => Some("/help")
    case Contact => Some("/contact")
    case NotFound => None
  }

  /** The route table: the page rendered for a pathname. */
  function Route(path: string): (p: Page)
    ensures p != NotFound <==> path in RoutedPaths
    ensures p != NotFound ==> PathOf(p) == Some(path)
  {
    if path == "/" then Home
    else if path == "/upload" then DocumentUpload
    else if path == "/analysis" then DocumentAnalysis
    else if path == "/about" then About
    else if path == "/help" then Help
    else if path == "/contact" then Contact
    else NotFound
  }

  /** Every routed page is reached from its own path, so no two paths share a
      page and no page is shadowed. */
  lemma RouteRoundTrip(p: Page)
    requires p != NotFound
    ensures Route(PathOf(p).value) == p
  {
  }

  /** The profile page exists but is not routed. */
  lemma ProfileIsNotRouted()
    ensures Route("/profile") == NotFound
  {
  }
}
