/** Exact path matching, as `Array.prototype.includes` does it on a list of route paths. */
module Paths {

  /** A top-level route: "/" followed by a name without further slashes. */
  predicate TopLevel(p: string) {
    p != [] && p[0] == '/' && forall i :: 1 <= i < |p| ==> p[i] != '/'
  }

  /** A path below a top-level route is never equal to a top-level route. */
  lemma SubPathIsNotTopLevel(p: string, rest: string)
    requires p != "/" && TopLevel(p)
    requires rest != [] && rest[0] == '/'
    ensures !TopLevel(p + rest)
  {
    assert (p + rest)[|p|] == '/';
  }
}
