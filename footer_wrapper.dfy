/** The stand-alone footer wrapper: it renders the footer on a fixed list of pages and
    nothing elsewhere. */
module FooterWrapper {
  import opened Paths

  const ShowFooterPaths: seq<string> := ["/", "/about", "/terms", "/privacy", "/support", "/contact", "/payment"]

  /** `Some(Footer)` is modelled as `true`, the `null` render as `false`. */
  function ShowsFooter(pathname: string): bool {
    pathname in ShowFooterPaths
  }

  /** The payment page has a footer; the log-in and sign-up pages do not. */
  lemma ListedPages()
    ensures ShowsFooter("/payment") && !ShowsFooter("/login") && !ShowsFooter("/signup")
  {
  }

  /** Matching is exact: a path below a listed page (other than "/") renders nothing. */
  lemma SubPathsHaveNoFooter(p: string, rest: string)
    requires p in ShowFooterPaths && p != "/"
    requires rest != [] && rest[0] == '/'
    ensures !ShowsFooter(p + rest)
  {
    assert forall q :: q in ShowFooterPaths ==> TopLevel(q);
    SubPathIsNotTopLevel(p, rest);
  }
}
