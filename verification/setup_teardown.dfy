/** The hooks made by `module_setup_teardown(forbidden_dependencies)`:
    `setUpModule` swaps the forbidden modules of the registry for stand-ins and
    `tearDownModule` writes the saved originals back. The factory's closure over
    `forbidden_dependencies` is the `deps` argument of `Setup`. */
module ModuleSetupTeardown {
  import opened Results
  import opened ModuleNames
  import opened Registry

  /** The registry together with the one process-wide slot `original_modules`;
      `saved` is `None` until a `setUpModule` has bound it. */
  datatype State = State(modules: Modules, saved: Option<Modules>)

  /** Every binding of `a` is also a binding of `b`. */
  predicate IsSubMap(a: Modules, b: Modules) {
    forall k | k in a :: k in b && a[k] == b[k]
  }

  /** The snapshot one loop iteration takes for `name`: every registry module
      below `name + "."`, plus `name` itself when it is loaded. */
  function Capture(R: Modules, name: string): (c: Modules)
    ensures forall m :: m in c <==> m in R && Matches(m, name)
    ensures IsSubMap(c, R)
  {
    var below := map m | m in R && StartsWith(m, name + ".") :: R[m];
    if name in R then below[name := R[name]] else below
  }

  /** The scan loop over `deps`, starting from `current`. Each iteration
      rebinds the snapshot, so the result is the last prefix's snapshot. */
  function Scan(R: Modules, deps: seq<string>, current: Modules): (saved: Modules)
    ensures saved == if |deps| == 0 then current else Capture(R, deps[|deps| - 1])
    decreases |deps|
  {
    if |deps| == 0 then current else Scan(R, deps[1..], Capture(R, deps[0]))
  }

  /** Overwrites each key of `keys` with a stand-in named after that key. */
  function Mark(R: Modules, keys: set<string>): (r: Modules)
    ensures r.Keys == R.Keys + keys
    ensures forall k :: k in keys ==> r[k] == Forbidden(k)
    ensures forall k :: k in R && k !in keys ==> r[k] == R[k]
  {
    map k | k in R.Keys + keys :: if k in keys then Forbidden(k) else R[k]
  }

  /** Writes every saved binding back into `R`. */
  function Restore(R: Modules, saved: Modules): (r: Modules)
    ensures r.Keys == R.Keys + saved.Keys
    ensures forall k :: k in saved ==> r[k] == saved[k]
    ensures forall k :: k in R && k !in saved ==> r[k] == R[k]
  {
    R + saved
  }

  /** Binds the slot to `saved` and replaces every saved module by a stand-in. */
  function Install(s: State, saved: Modules): (t: State)
    requires IsSubMap(saved, s.modules)
    ensures t.saved == Some(saved)
    ensures t.modules.Keys == s.modules.Keys
    ensures forall k :: k in saved ==> t.modules[k] == Forbidden(k)
    ensures forall k :: k in s.modules && k !in saved ==> t.modules[k] == s.modules[k]
  {
    State(Mark(s.modules, saved.Keys), Some(saved))
  }

  /** `setUpModule`, as written: only the last prefix of `deps` is captured
      and replaced; an earlier saved snapshot is discarded. */
  function Setup(s: State, deps: seq<string>): (t: State)
    ensures t.saved.Some? && IsSubMap(t.saved.value, s.modules)
    ensures forall k :: k in t.saved.value <==>
      k in s.modules && |deps| > 0 && Matches(k, deps[|deps| - 1])
    ensures t.modules.Keys == s.modules.Keys
    ensures forall k :: k in t.saved.value ==> t.modules[k] == Forbidden(k)
    ensures forall k :: k in s.modules && k !in t.saved.value ==> t.modules[k] == s.modules[k]
  {
    Install(s, Scan(s.modules, deps, map[]))
  }

  /** `tearDownModule`: writes each saved original back; raises `NameError`
      when no `setUpModule` ever bound `original_modules`. */
  function Teardown(s: State): (r: Result<State, Error>)
    ensures r.Failure? <==> s.saved.None?
    ensures r.Failure? ==> r.error == NameUnbound("original_modules")
    ensures r.Success? ==>
              && r.value.saved == s.saved
              && r.value.modules.Keys == s.modules.Keys + s.saved.value.Keys
              && (forall k :: k in s.saved.value ==> r.value.modules[k] == s.saved.value[k])
              && (forall k :: k in s.modules && k !in s.saved.value ==> r.value.modules[k] == s.modules[k])
  {
    match s.saved
    case None => Failure(NameUnbound("original_modules"))
    case Some(saved) => Success(State(Restore(s.modules, saved), s.saved))
  }

  /** Marking then restoring the same sub-map gives the registry back, and
      writes made in between to other keys survive. */
  lemma RestoreUndoesMark(R: Modules, saved: Modules, changes: Modules)
    requires IsSubMap(saved, R)
    requires changes.Keys !! saved.Keys
    ensures Restore(Mark(R, saved.Keys) + changes, saved) == R + changes
  {
    var lhs := Restore(Mark(R, saved.Keys) + changes, saved);
    forall k | k in lhs
      ensures k in R + changes && lhs[k] == (R + changes)[k]
    {
      if k in saved {
        assert k !in changes;
      }
    }
  }

  /** Teardown after `Install` restores every touched entry exactly and keeps
      what was written in between to untouched keys, including new modules. */
  lemma InstallThenTeardown(s: State, saved: Modules, changes: Modules)
    requires IsSubMap(saved, s.modules)
    requires changes.Keys !! saved.Keys
    ensures
      var t := Install(s, saved);
      Teardown(State(t.modules + changes, t.saved))
        == Success(State(s.modules + changes, Some(saved)))
  {
    RestoreUndoesMark(s.modules, saved, changes);
  }

  /** Setup then teardown with no change in between yields the original
      registry exactly. */
  lemma SetupTeardownRoundTrip(s: State, deps: seq<string>)
    ensures
      var t := Setup(s, deps);
      Teardown(t) == Success(State(s.modules, t.saved))
  {
    var saved := Scan(s.modules, deps, map[]);
    InstallThenTeardown(s, saved, map[]);
    assert s.modules + map[] == s.modules;
    assert Install(s, saved).modules + map[] == Install(s, saved).modules;
  }

  /** Modules imported (or rebound) between setup and teardown under names
      setup did not capture are left in place by teardown. */
  lemma TeardownKeepsNewKeys(s: State, deps: seq<string>, changes: Modules)
    requires changes.Keys !! Setup(s, deps).saved.value.Keys
    ensures
      var t := Setup(s, deps);
      Teardown(State(t.modules + changes, t.saved))
        == Success(State(s.modules + changes, t.saved))
  {
    InstallThenTeardown(s, Scan(s.modules, deps, map[]), changes);
  }

  /** Teardown leaves the slot as it was, so a second teardown changes nothing. */
  lemma TeardownIdempotent(s: State)
    requires s.saved.Some?
    ensures Teardown(s).Success?
    ensures Teardown(Teardown(s).value) == Teardown(s)
  {
    var t := Teardown(s).value;
    assert Restore(t.modules, s.saved.value) == t.modules;
  }

  /** Only the last prefix counts: whatever the earlier prefixes are, setup
      behaves as if `deps` held its last element alone, and an empty list
      touches nothing. */
  lemma OnlyLastPrefixCounts(s: State, deps: seq<string>)
    ensures |deps| == 0 ==> Setup(s, deps) == State(s.modules, Some(map[]))
    ensures |deps| > 0 ==> Setup(s, deps) == Setup(s, [deps[|deps| - 1]])
  {
    if |deps| == 0 {
      assert Mark(s.modules, {}) == s.modules;
    }
  }

  /** Every captured module is a stand-in after setup, and any attribute
      lookup on it other than the stand-in's own `name` fails with an error
      naming that module. */
  lemma StandInsRefuseLookups(s: State, deps: seq<string>, k: string, attr: string)
    requires |deps| > 0 && k in s.modules && Matches(k, deps[|deps| - 1])
    requires attr != InstanceAttribute
    ensures k in Setup(s, deps).modules
    ensures GetAttr(Setup(s, deps).modules[k], attr) == Failure(ImportForbidden(Message(k)))
  {
  }

  /** Running setup twice without a teardown saves the stand-ins themselves,
      so the later teardown cannot bring the originals back. */
  lemma NestedSetupLosesOriginals(s: State, deps: seq<string>, k: string)
    requires |deps| > 0 && k in s.modules && Matches(k, deps[|deps| - 1])
    ensures
      var t := Teardown(Setup(Setup(s, deps), deps));
      t.Success? && t.value.modules[k] == Forbidden(k)
  {
  }

  /** Module `k` falls under at least one of the forbidden names `deps`. */
  predicate ForbiddenBy(deps: seq<string>, k: string) {
    exists i :: 0 <= i < |deps| && Matches(k, deps[i])
  }

  /** The scan loop as the factory's documentation describes it: the
      snapshots of all prefixes accumulate instead of replacing each other. */
  function ScanAll(R: Modules, deps: seq<string>, current: Modules): (saved: Modules)
    requires IsSubMap(current, R)
    ensures IsSubMap(saved, R)
    ensures forall k :: k in saved <==> k in current || (k in R && ForbiddenBy(deps, k))
    decreases |deps|
  {
    if |deps| == 0 then current
    else
      var saved := ScanAll(R, deps[1..], current + Capture(R, deps[0]));
      assert forall k :: ForbiddenBy(deps, k) <==> Matches(k, deps[0]) || ForbiddenBy(deps[1..], k) by {
        forall k
          ensures ForbiddenBy(deps, k) <==> Matches(k, deps[0]) || ForbiddenBy(deps[1..], k)
        {
          if ForbiddenBy(deps, k) && !Matches(k, deps[0]) {
            var i :| 0 <= i < |deps| && Matches(k, deps[i]);
            assert Matches(k, deps[1..][i - 1]);
          }
          if ForbiddenBy(deps[1..], k) {
            var i :| 0 <= i < |deps| - 1 && Matches(k, deps[1..][i]);
            assert Matches(k, deps[i + 1]);
          }
        }
      }
      saved
  }

  /** `setUpModule` corrected to what its documentation promises: every
      loaded module under ANY forbidden name is replaced by a stand-in. */
  function SetupAll(s: State, deps: seq<string>): (t: State)
    ensures t.saved.Some? && IsSubMap(t.saved.value, s.modules)
    ensures forall k :: k in t.saved.value <==> k in s.modules && ForbiddenBy(deps, k)
    ensures t.modules.Keys == s.modules.Keys
    ensures forall k :: k in t.saved.value ==> t.modules[k] == Forbidden(k)
    ensures forall k :: k in s.modules && k !in t.saved.value ==> t.modules[k] == s.modules[k]
  {
    Install(s, ScanAll(s.modules, deps, map[]))
  }

  /** The corrected setup also round-trips through teardown. */
  lemma SetupAllTeardownRoundTrip(s: State, deps: seq<string>)
    ensures
      var t := SetupAll(s, deps);
      Teardown(t) == Success(State(s.modules, t.saved))
  {
    var saved := ScanAll(s.modules, deps, map[]);
    InstallThenTeardown(s, saved, map[]);
    assert s.modules + map[] == s.modules;
    assert Install(s, saved).modules + map[] == Install(s, saved).modules;
  }

  /** ... and keeps modules written in between under names it did not capture. */
  lemma SetupAllTeardownKeepsNewKeys(s: State, deps: seq<string>, changes: Modules)
    requires changes.Keys !! SetupAll(s, deps).saved.value.Keys
    ensures
      var t := SetupAll(s, deps);
      Teardown(State(t.modules + changes, t.saved))
        == Success(State(s.modules + changes, t.saved))
  {
    InstallThenTeardown(s, ScanAll(s.modules, deps, map[]), changes);
  }

  /** The discrepancy: a loaded module under an earlier forbidden name but not
      under the last one stays importable after setup as written, while the
      corrected setup replaces it. */
  lemma EarlierPrefixLeftImportable(s: State, deps: seq<string>, k: string)
    requires k in s.modules && s.modules[k].Real?
    requires ForbiddenBy(deps, k) && !Matches(k, deps[|deps| - 1])
    ensures Setup(s, deps).modules[k] == s.modules[k]
    ensures GetAttr(Setup(s, deps).modules[k], "x").Success?
    ensures SetupAll(s, deps).modules[k] == Forbidden(k)
  {
  }

  /** `setUpModule` as the Python loops run it: the scan loop over `deps`,
      then the loop that writes a stand-in over each saved key. */
  method SetUpModule(s: State, deps: seq<string>) returns (t: State)
    ensures t == Setup(s, deps)
  {
    var R := s.modules;
    var original: Modules := map[];
    for i := 0 to |deps|
      invariant original == if i == 0 then map[] else Capture(R, deps[i - 1])
    {
      original := Capture(R, deps[i]);
    }
    var modules := R;
    var todo := original.Keys;
    while todo != {}
      invariant todo <= original.Keys
      invariant modules == Mark(R, original.Keys - todo)
      decreases todo
    {
      var k :| k in todo;
      modules := modules[k := Forbidden(k)];
      todo := todo - {k};
    }
    t := State(modules, Some(original));
  }

  /** `tearDownModule` as the Python loop runs it: one registry write per
      saved binding. */
  method TearDownModule(s: State) returns (r: Result<State, Error>)
    ensures r == Teardown(s)
  {
    if s.saved.None? {
      return Failure(NameUnbound("original_modules"));
    }
    var saved := s.saved.value;
    var modules := s.modules;
    var todo := saved.Keys;
    while todo != {}
      invariant todo <= saved.Keys
      invariant modules == Restore(s.modules, saved - todo)
      decreases todo
    {
      var k :| k in todo;
      modules := modules[k := saved[k]];
      todo := todo - {k};
    }
    assert saved - todo == saved;
    r := Success(State(modules, s.saved));
  }
}
