# Forbidden-dependency test guard

A Dafny model of the test helper in `openedx/tests/helpers.py`. A test package
calls `module_setup_teardown(forbidden_dependencies)` and gets two hooks.
`setUpModule` replaces already-loaded modules in the process module registry
(`sys.modules`) with `ForbiddenDependencyModule` stand-ins. Any attribute
lookup on a stand-in raises, except a lookup of its own `name`.
`tearDownModule` writes the saved originals back.

The registry is an immutable `map<string, Entry>`. An `Entry` is either an
original module, `Real(id)`, or a stand-in, `Forbidden(name)`. The global
`original_modules` is the `saved` slot of `State`. It is `None` until a
`setUpModule` binds it. Both hooks are pure functions over `State`:

- `Setup` and `Teardown` are the reference definitions.
- The methods `SetUpModule` and `TearDownModule` follow the Python loops one
  registry write at a time. Each is proved equal to its function.
- The factory's closure over `forbidden_dependencies` is the `deps` argument
  of `Setup`.

Files:

- `results.dfy`: `Option` and `Result`.
- `module_names.dfy`: `str.startswith` and the rule for which names fall
  under a forbidden name.
- `registry.dfy`: registry entries, the stand-in's attribute lookup and its
  error message.
- `setup_teardown.dfy`: the state, both hooks, and their properties. It also
  holds the corrected setup described under Findings.
- `call_site.dfy`: the guard that `openedx/core/djangolib/__init__.py`
  installs, `['lms', 'cms', 'common']`, applied to a sample registry.

The model follows the code, not the documentation. The factory's docstring
says every forbidden dependency is replaced. The code rebinds
`original_modules` on each iteration of the loop over prefixes, so only the
last prefix's modules are saved and replaced. `Setup` does exactly this.
`SetupAll` is the corrected version.

## Model

| member | source | states |
|---|---|---|
| `ModuleNames.SubmoduleMatches` | openedx/tests/helpers.py:56 | Every dotted submodule `name.sub` falls under the forbidden name `name`. |
| `ModuleNames.MatchIsPackageOrDotted` | openedx/tests/helpers.py:56-58 | Apart from `name` itself, a matching module name continues `name` with a `.`. |
| `ModuleNames.SiblingNeverMatches` | openedx/tests/helpers.py:56-58 | A name that extends `name` with anything other than a `.` never matches it. So `lmsx` is never captured for `lms`. |
| `Registry.GetAttr` | openedx/tests/helpers.py:24-30 | A lookup fails exactly when it is on a stand-in and asks for anything other than the stand-in's own `name` attribute. Looking up `name` returns the stand-in's module name. The failure is an `ImportForbidden` error whose text is exactly "You aren't allowed to import anything from " + module name + "!!", so the module can be read back from it. A lookup on an original module returns that module's attribute. |
| `Registry.MessageNamesModule` | openedx/tests/helpers.py:28 | The module name can be read back out of the stand-in's error text. |
| `Registry.MessageInjective` | openedx/tests/helpers.py:28 | Different modules get different error texts. |
| `ModuleSetupTeardown.Capture` | openedx/tests/helpers.py:56-58 | One iteration's snapshot contains key `m` exactly when `m` is in the registry and `m` equals the prefix or starts with prefix + ".". Each snapshot value is the registry's entry for that key. |
| `ModuleSetupTeardown.Scan` | openedx/tests/helpers.py:54-58 | Because the loop rebinds `original_modules`, the result is the last prefix's snapshot. With no prefixes it is the initial empty map. |
| `ModuleSetupTeardown.Install` | openedx/tests/helpers.py:60-61 | Binds the slot to the snapshot. Every saved key becomes a stand-in named after that key. Every other key keeps its entry, and no key is added or removed. |
| `ModuleSetupTeardown.Setup` | openedx/tests/helpers.py:48-61 | The saved map is part of the registry. It contains exactly the registry keys that fall under the last prefix. Those keys become stand-ins. All other keys are unchanged, and the key set is unchanged. |
| `ModuleSetupTeardown.Teardown` | openedx/tests/helpers.py:63-68 | Fails with NameError on `original_modules` exactly when no setup bound it. Otherwise the slot is unchanged, every saved key gets its saved entry back, and every other key is untouched. |
| `ModuleSetupTeardown.RestoreUndoesMark` | openedx/tests/helpers.py:56-68 | Replacing a part of the registry with stand-ins and then writing that part back gives the registry back. Writes made in between to other keys survive. |
| `ModuleSetupTeardown.InstallThenTeardown` | openedx/tests/helpers.py:56-68 | Teardown after installing any snapshot taken from the registry restores the original registry. Changes made in between to keys outside the snapshot are kept. |
| `ModuleSetupTeardown.SetupTeardownRoundTrip` | openedx/tests/helpers.py:48-68 | Setup followed by teardown, with nothing in between, gives back exactly the starting registry. |
| `ModuleSetupTeardown.TeardownKeepsNewKeys` | openedx/tests/helpers.py:67-68 | Modules added or rebound between setup and teardown under names setup did not capture are still there after teardown. Everything setup touched is restored. |
| `ModuleSetupTeardown.TeardownIdempotent` | openedx/tests/helpers.py:67-68 | Teardown leaves the slot as it was. A second teardown gives the same state as the first. |
| `ModuleSetupTeardown.OnlyLastPrefixCounts` | openedx/tests/helpers.py:54-58 | With no prefixes, setup changes nothing. With one or more prefixes, it behaves as if it were given only the last one. |
| `ModuleSetupTeardown.StandInsRefuseLookups` | openedx/tests/helpers.py:60-61 | After setup, a lookup of anything except `name` on a captured module fails with the error text for that module's own name. |
| `ModuleSetupTeardown.NestedSetupLosesOriginals` | openedx/tests/helpers.py:53-58 | A second setup without a teardown saves the stand-ins themselves. After the later teardown the captured module is still a stand-in. |
| `ModuleSetupTeardown.ScanAll` | openedx/tests/helpers.py:34-37 | The corrected scan lets snapshots add up. Its result contains exactly the registry keys that fall under at least one prefix. |
| `ModuleSetupTeardown.SetupAll` | openedx/tests/helpers.py:48-61 | Corrected setup: every loaded module under any forbidden name becomes a stand-in. All other modules are unchanged. |
| `ModuleSetupTeardown.SetupAllTeardownRoundTrip` | openedx/tests/helpers.py:63-68 | Corrected setup followed by teardown gives back the starting registry exactly. |
| `ModuleSetupTeardown.SetupAllTeardownKeepsNewKeys` | openedx/tests/helpers.py:67-68 | After the corrected setup, teardown keeps modules written in between under names that were not captured. |
| `ModuleSetupTeardown.EarlierPrefixLeftImportable` | openedx/tests/helpers.py:54-58 | Take an original module that falls under an earlier prefix but not the last one. Setup as written leaves it importable, and the corrected setup replaces it. |
| `ModuleSetupTeardown.SetUpModule` | openedx/tests/helpers.py:48-61 | The loop over prefixes, followed by one stand-in write per saved key, computes `Setup`. |
| `ModuleSetupTeardown.TearDownModule` | openedx/tests/helpers.py:63-68 | One registry write per saved binding computes `Teardown`, including the NameError when nothing was saved. |
| `DjangolibGuard.CallSiteGuardsOnlyCommon` | openedx/core/djangolib/__init__.py:6 | Apply `['lms', 'cms', 'common']` to a registry holding `lms`, `lms.djangoapps`, `cms`, `common`, `common.lib`, `lmsx` and `openedx`. As written, only `common` and `common.lib` become stand-ins, and `lms` stays importable. |
| `DjangolibGuard.CallSiteIntendedGuardsAll` | openedx/core/djangolib/__init__.py:6 | Same guard and registry with the corrected setup: all five forbidden modules become stand-ins. `lmsx` and `openedx` keep their entries, and teardown gives back the registry. |

## Left out

- Escaping helpers (`js_utils.py`, exercised by `openedx/core/djangolib/tests/test_js_utils.py`): their source is not part of this model. They wrap JSON and HTML-escaping libraries that are not visible here.
- Mako template rendering and `HTMLParser` unescaping in that test file: these are library calls.
- `print msg` in `ForbiddenDependencyModule.__getattr__`: this is console output. Only the raised error and its text are modelled.
- The Python import machinery and `sys.modules` object identity: a module is an opaque `Real(id)`, and entries are compared by equality.
- Registry.GetAttr: a stand-in's class attributes are not modelled. Normal lookup finds them (`__class__`, `__dict__`, its methods) without calling `__getattr__`. Only the instance attribute `name` is modelled.
- Registry.GetAttr: a lookup on an original module always succeeds with an opaque `Attribute(id, attr)`. Whether the attribute exists is outside the model.
- Threads and several guards in flight at once: the model has one `saved` slot, matching the single global. `NestedSetupLosesOriginals` covers only nested use of that slot.
- Iteration order of `iteritems()`: the saved keys are distinct, so the order of the registry writes does not affect the result. The model uses sets.

## Findings

| source | as written | input that shows it | evidently intended | confidence | as-written member | corrected member |
|---|---|---|---|---|---|---|
| openedx/tests/helpers.py:55-58 | `original_modules` is rebound to a fresh dict on every iteration over `forbidden_dependencies`. Only the last prefix's modules are saved and replaced. | The guard at openedx/core/djangolib/__init__.py:6 is `['lms', 'cms', 'common']`. With `lms` loaded, setup leaves `lms` as the original module, so importing from it does not fail. | Snapshots add up over all prefixes, so every forbidden dependency is replaced. This is what the docstring at lines 34-37 and the three-name call site describe. | high; not executed | `ModuleSetupTeardown.EarlierPrefixLeftImportable` | `ModuleSetupTeardown.SetupAll` |
