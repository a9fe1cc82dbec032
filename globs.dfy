/**
 * Include/exclude pattern lists as the sync commands use them: every glob is
 * translated with `fnmatch.translate`, the translations are joined with `|`
 * and the joined expression is tried with `re.match`.
 *
 * Glob semantics are not modelled: a `GlobMatcher` says whether one glob
 * matches a whole path. What the model keeps is how the joined expression
 * behaves for empty and non-empty pattern sets.
 */
module Globs {

  /** `glob(pattern, path)`: does the translated pattern match the path. */
  type GlobMatcher = (string, string) -> bool

  /** The regular expression a pattern set is joined into. */
  datatype Regex =
    | Empty                      // the empty expression "": matches every string
    | NeverMatches               // the fallback "$.": matches nothing
    | AnyOf(globs: set<string>)  // "|".join of translated globs

  /** `r"|".join([fnmatch.translate(x) for x in includes])`. */
  function IncludesRegex(includes: set<string>): (r: Regex)
    ensures includes == {} <==> r == Empty
  {
    if includes == {} then Empty else AnyOf(includes)
  }

  /** `r"|".join([fnmatch.translate(x) for x in excludes]) or r"$."`. */
  function ExcludesRegex(excludes: set<string>): (r: Regex)
    ensures excludes == {} <==> r == NeverMatches
  {
    if excludes == {} then NeverMatches else AnyOf(excludes)
  }

  /** `re.match(r, s)` is truthy. */
  predicate ReMatch(glob: GlobMatcher, r: Regex, s: string)
  {
    match r
    case Empty => true
    case NeverMatches => false
    case AnyOf(globs) => exists g :: g in globs && glob(g, s)
  }

  /** A path is included when it matches some include glob; no includes include everything. */
  predicate Included(glob: GlobMatcher, includes: set<string>, s: string)
  {
    ReMatch(glob, IncludesRegex(includes), s)
  }

  /** A path is excluded when it matches some exclude glob; no excludes exclude nothing. */
  predicate Excluded(glob: GlobMatcher, excludes: set<string>, s: string)
  {
    ReMatch(glob, ExcludesRegex(excludes), s)
  }

  lemma IncludedMeaning(glob: GlobMatcher, includes: set<string>, s: string)
    ensures Included(glob, includes, s) <==> includes == {} || exists g :: g in includes && glob(g, s)
  {
  }

  lemma ExcludedMeaning(glob: GlobMatcher, excludes: set<string>, s: string)
    ensures Excluded(glob, excludes, s) <==> exists g :: g in excludes && glob(g, s)
  {
  }
}
