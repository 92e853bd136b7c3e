/** The guard installed for the tests of `openedx.core.djangolib`, which
    forbids `lms`, `cms` and `common`, applied to a sample registry. */
module DjangolibGuard {
  import opened Results
  import opened ModuleNames
  import opened Registry
  import opened ModuleSetupTeardown

  const ForbiddenDependencies: seq<string> := ["lms", "cms", "common"]

  /** A registry with each forbidden package, a submodule of two of them, a
      look-alike sibling `lmsx` and an allowed package. */
  const Loaded: Modules := map[
    "lms" := Real(1), "lms.djangoapps" := Real(2), "cms" := Real(3),
    "common" := Real(4), "common.lib" := Real(5), "lmsx" := Real(6),
    "openedx" := Real(7)]

  /** The sample registry's bindings, one by one. */
  lemma LoadedEntries()
    ensures Loaded.Keys == {"lms", "lms.djangoapps", "cms", "common", "common.lib", "lmsx", "openedx"}
    ensures Loaded["lms"] == Real(1) && Loaded["lms.djangoapps"] == Real(2)
    ensures Loaded["cms"] == Real(3) && Loaded["common"] == Real(4)
    ensures Loaded["common.lib"] == Real(5) && Loaded["lmsx"] == Real(6)
    ensures Loaded["openedx"] == Real(7)
  {
  }

  /** How each sample name relates to the three forbidden names. */
  lemma SampleMatches()
    ensures Matches("lms", "lms") && Matches("lms.djangoapps", "lms")
    ensures Matches("cms", "cms") && Matches("common", "common") && Matches("common.lib", "common")
    ensures !Matches("lms", "common") && !Matches("lms.djangoapps", "common") && !Matches("cms", "common")
    ensures !Matches("lmsx", "common") && !Matches("openedx", "common")
    ensures !Matches("lmsx", "lms") && !Matches("lmsx", "cms")
    ensures !Matches("openedx", "lms") && !Matches("openedx", "cms")
  {
    SubmoduleMatches("lms", "djangoapps");
    SubmoduleMatches("common", "lib");
    FirstCharMismatch("lms", "common");
    FirstCharMismatch("lms.djangoapps", "common");
    FirstCharMismatch("lmsx", "common");
    FirstCharMismatch("lmsx", "cms");
    FirstCharMismatch("openedx", "common");
    FirstCharMismatch("openedx", "lms");
    FirstCharMismatch("openedx", "cms");
    SiblingNeverMatches("lms", "x");
  }

  /** The snapshot taken for the last name, `common`. */
  lemma CommonSnapshot()
    ensures Capture(Loaded, "common") == map["common" := Real(4), "common.lib" := Real(5)]
  {
    SampleMatches();
  }

  /** As written, the hooks replace only `common` and its submodules: `lms`,
      `lms.djangoapps` and `cms` remain importable. */
  lemma CallSiteGuardsOnlyCommon()
    ensures
      var t := Setup(State(Loaded, None), ForbiddenDependencies);
      && t.saved == Some(map["common" := Real(4), "common.lib" := Real(5)])
      && t.modules == Loaded["common" := Forbidden("common")]["common.lib" := Forbidden("common.lib")]
      && GetAttr(t.modules["lms"], "djangoapps").Success?
      && GetAttr(t.modules["common"], "lib") == Failure(ImportForbidden(Message("common")))
  {
    CommonSnapshot();
    assert ForbiddenDependencies[|ForbiddenDependencies| - 1] == "common";
  }

  // The sample lemmas below take the guard and the registry as parameters
  // pinned by `requires` rather than naming the constants in their bodies:
  // applied to the literal constants directly, the solver unfolds the
  // recursive scan on them and runs out of resource.

  /** The sample names that fall under some forbidden name. */
  lemma ForbiddenSamples(deps: seq<string>)
    requires deps == ForbiddenDependencies
    ensures ForbiddenBy(deps, "lms") && ForbiddenBy(deps, "lms.djangoapps")
    ensures ForbiddenBy(deps, "cms")
    ensures ForbiddenBy(deps, "common") && ForbiddenBy(deps, "common.lib")
  {
    SampleMatches();
    assert deps[0] == "lms" && deps[1] == "cms" && deps[2] == "common";
  }

  /** The sample names that fall under none of them. */
  lemma AllowedSamples(deps: seq<string>)
    requires deps == ForbiddenDependencies
    ensures !ForbiddenBy(deps, "lmsx") && !ForbiddenBy(deps, "openedx")
  {
    SampleMatches();
  }

  /** With the corrected setup every forbidden package and submodule is
      replaced while `lmsx` and `openedx` are not, and teardown restores the
      sample registry exactly. */
  lemma CallSiteIntendedGuardsAll(s: State, deps: seq<string>)
    requires s == State(Loaded, None) && deps == ForbiddenDependencies
    ensures
      var t := SetupAll(s, deps);
      && t.modules.Keys == Loaded.Keys
      && t.modules["lms"] == Forbidden("lms")
      && t.modules["lms.djangoapps"] == Forbidden("lms.djangoapps")
      && t.modules["cms"] == Forbidden("cms")
      && t.modules["common"] == Forbidden("common")
      && t.modules["common.lib"] == Forbidden("common.lib")
      && t.modules["lmsx"] == Real(6)
      && t.modules["openedx"] == Real(7)
      && Teardown(t) == Success(State(Loaded, t.saved))
  {
    var t := SetupAll(s, deps);
    LoadedEntries();
    assert t.modules["lms"] == Forbidden("lms")
        && t.modules["lms.djangoapps"] == Forbidden("lms.djangoapps")
        && t.modules["cms"] == Forbidden("cms")
        && t.modules["common"] == Forbidden("common")
        && t.modules["common.lib"] == Forbidden("common.lib") by {
      ForbiddenSamples(deps);
    }
    assert t.modules["lmsx"] == Real(6) && t.modules["openedx"] == Real(7) by {
      AllowedSamples(deps);
    }
    SetupAllTeardownRoundTrip(s, deps);
  }
}
