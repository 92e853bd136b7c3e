/** Dotted Python module names and the prefix rule the guard uses to pick them. */
module ModuleNames {

  /** Python's `str.startswith`: `p` is a prefix of `s`. */
  predicate StartsWith(s: string, p: string) {
    |p| <= |s| && s[..|p|] == p
  }

  /** Module `m` falls under the forbidden name `name`: it is the package
      itself or one of its (transitive) submodules. */
  predicate Matches(m: string, name: string) {
    m == name || StartsWith(m, name + ".")
  }

  /** Every submodule of `name` matches it. */
  lemma SubmoduleMatches(name: string, sub: string)
    ensures Matches(name + "." + sub, name)
  {
    var m := name + "." + sub;
    assert m[..|name + "."|] == name + ".";
  }

  /** A matching name other than `name` itself continues `name` with a dot. */
  lemma MatchIsPackageOrDotted(m: string, name: string)
    requires Matches(m, name) && m != name
    ensures |m| > |name| && m[..|name|] == name && m[|name|] == '.'
  {
    assert m[..|name| + 1] == name + ".";
    assert m[..|name|] == (name + ".")[..|name|];
    assert m[|name|] == (name + ".")[|name|];
  }

  /** A sibling that merely shares the spelling (`lmsx` for `lms`) never matches. */
  lemma SiblingNeverMatches(name: string, suffix: string)
    requires |suffix| > 0 && suffix[0] != '.'
    ensures !Matches(name + suffix, name)
  {
    var m := name + suffix;
    assert m[|name|] == suffix[0];
    assert m[..|name| + 1][|name|] != (name + ".")[|name|];
  }

  /** Names that begin with different characters never match each other. */
  lemma FirstCharMismatch(m: string, name: string)
    requires |m| > 0 && |name| > 0 && m[0] != name[0]
    ensures !Matches(m, name)
  {
    assert (name + ".")[0] == name[0];
    if |name + "."| <= |m| {
      assert m[..|name + "."|][0] == m[0];
    }
  }
}
