# clang-tutor test-suite configuration, modelled in Dafny

This project models `test/lit.cfg.py`, the lit configuration of the
clang-tutor test suite. Before any test runs, that script does four things:

- It looks up the required tools `FileCheck`, `clang` and `clang++`, in that
  order, on the `PATH`.
- It stops with a fatal error at the first tool it cannot find. Each tool it
  finds adds the substitution `("%" + name, path)` to `config.substitutions`.
- After the tools it appends the host-supplied `%shlibext` and `%shlibdir`
  entries.
- It sets the discovery policy (`.cpp` files are tests and `Inputs`
  directories are skipped) and the test format. The test format is assigned
  twice and the second assignment wins.

Modules:

- `Wrappers` defines `Option`.
- `Tools` describes the lookup loop as functions of the tool list and of an
  abstract PATH resolver `which: string -> Option<string>`:
  - `FirstMissing` gives the index of the first tool that is not found.
  - `Resolve` gives the outcome.
  - `ResolvedEntries` gives the appended entries.
  - Lemmas prove ordering, exact values, early exit, which tools are
    looked up, and distinct placeholders.
- `Discovery` defines the suffix and exclude lists and the name-only
  predicates they stand for.
- `LitConfig` defines the class `Config`, with the fields the script assigns
  (`substitutions`, `suffixes`, `excludes`, `testSourceRoot`, `testFormat`),
  and the script itself as the method `Configure`:
  - `Configure` assigns the test format, then the discovery settings, then
    the test format again.
  - It then runs the lookup loop `ResolveTools`, a `for` loop with early
    exit.
  - It appends the two shared-library entries only if every tool was found.
  - Its contract ties the new state to the spec functions. The table left
    after configuration is the old table followed by `TableEntries`.

The spec functions do not depend on the loop. Lemmas about them state what
each outcome means:

- `ConfiguredTable` covers success.
- `FatalTable` covers the fatal error.

Two behaviours of the script are worth stating, and the model follows the code in both:

- The code never rejects a repeated placeholder; `config.substitutions.append`
  only appends.
- The code does not let `use_lit_shell` decide the execution mode. Line 38
  overwrites line 19, so the host's shell (`ShTest(True)`) is always used.
  `Configure` and `ConfigureSelectsExternalShell` state this.

## Model

| member | source | states |
|---|---|---|
| Tools.FirstMissing | test/lit.cfg.py:49-56 | the index returned is a tool the resolver cannot find, every earlier tool is found, and `None` is returned exactly when every tool is found |
| Tools.Resolve | test/lit.cfg.py:49-56 | how the loop ends: normally, or fatally with a listed tool that the resolver cannot find |
| Tools.ResolvedEntries | test/lit.cfg.py:49-59 | the entries the loop appends before it stops, at most one per listed tool. Their exact count and contents are proved in `ResolvedEntriesSpec` |
| LitConfig.TableEntries | test/lit.cfg.py:41-63 | everything the script appends: the tool entries come first, and at most two further entries follow them. The success and fatal cases are proved in `ConfiguredTable` and `FatalTable` |
| Tools.ResolvedEntriesSpec | test/lit.cfg.py:41-59 | one entry is appended per tool found, in list order. That is every tool on success and the tools before the missing one otherwise. Entry `i` is `("%" + tools[i], p)`, where `p` is exactly the path the resolver returned |
| Tools.LookupStopsAtFirstMissing | test/lit.cfg.py:49-56 | once tool `k` is missing, any resolver that agrees on tools `0..k` gives the same outcome and the same entries. So the tools after `k` are never consulted |
| Tools.FatalNamesFirstMissing | test/lit.cfg.py:49-56 | a fatal outcome names the first missing tool, and no entry carries that tool's placeholder |
| Tools.ResolveFatalIff | test/lit.cfg.py:49-56 | the outcome is fatal if and only if some required tool is not found, and the tool it names is one of them |
| Tools.PlaceholdersDistinct | test/lit.cfg.py:41-58 | distinct tool names give pairwise distinct placeholders among the appended entries |
| Tools.PlaceholderInjective | test/lit.cfg.py:58 | `"%" + a == "%" + b` exactly when `a == b` |
| Tools.RequiredToolsDistinct | test/lit.cfg.py:41-45 | the three required names are distinct, so `%clang` and `%clang++` are separate placeholders |
| Tools.Outcome.Message | test/lit.cfg.py:52-56 | the fatal message starts `Tool '`, followed by the tool's name and a closing quote |
| Discovery.TestFileIffCpp | test/lit.cfg.py:21-23 | a file is a candidate test exactly when its name ends in `.cpp` |
| Discovery.InSuiteIff | test/lit.cfg.py:21-31 | a path is in the suite exactly when its file name ends in `.cpp` and none of its directories is named `Inputs`. The decision uses names only |
| Discovery.ExcludedSubtree | test/lit.cfg.py:28-31 | nothing below an `Inputs` directory, at any depth, is in the suite |
| Discovery.DiscoveryExamples | test/lit.cfg.py:21-31 | `a.cpp` and `sub/a.cpp` are discovered; `Inputs/b.cpp` and `a.h` are not |
| LitConfig.ConfiguredTable | test/lit.cfg.py:41-63 | on success the table grows by exactly three tool entries plus two. The tool entries come first, in list order, with the resolved paths. Then come `("%shlibext", ext)` and `("%shlibdir", dir)`, verbatim. All placeholders differ |
| LitConfig.FatalTable | test/lit.cfg.py:49-56 | on a fatal outcome the named tool is the first missing one. Only the entries of the tools before it were appended. No entry exists for it or for `%shlibext`/`%shlibdir`. Exactly the tools up to and including it were looked up |
| LitConfig.Config.constructor | test/lit.cfg.py:10 | the configuration object holds lit's initial substitutions and nothing else that the script sets |
| LitConfig.Config.Append | test/lit.cfg.py:59 | an append adds the entry at the end and changes nothing else |
| LitConfig.Config.SetTestFormat | test/lit.cfg.py:38 | assigning the test format replaces the previous one |
| LitConfig.Config.ResolveTools | test/lit.cfg.py:49-59 | the loop's outcome is `Resolve`. The old substitutions stay as a prefix, followed by `ResolvedEntries`. The names queried are the tools up to the first missing one |
| LitConfig.Config.Configure | test/lit.cfg.py:19-63 | the old substitutions stay unchanged as a prefix, followed by `TableEntries`. The outcome is `Resolve`. The final format is `ShTest(True)` whatever `useLitShell` is. The suffixes are `[".cpp"]`, the excludes `["Inputs"]`, and the source root is the script's directory |
| LitConfig.ConfigureSelectsExternalShell | test/lit.cfg.py:19-38 | for every value of `use_lit_shell`, the test format after configuration is the external shell |

## Left out

- The real `PATH` search of `shutil.which` (line 50) depends on the host. It is the resolver parameter `which`.
- `config.lit_config.fatal` (line 53) ends the process; here it is the `Fatal(tool)` outcome. Entries appended for earlier tools stay in the table, as they do in the script before it exits.
- `os.path.dirname(__file__)` (line 26) is the parameter `configDir`; the path computation is host I/O.
- `llvm_config.use_lit_shell`, `config.llvm_shlib_ext` and `config.llvm_shlib_dir` come from the host and lit, so they are parameters.
- The internals of `lit.formats.ShTest`, lit's directory walker and its substitution engine are library code outside this repository. Only the flag passed to `ShTest` and the lists handed to lit are modelled. `Discovery.InSuite` states the meaning the comments at lines 21-22 and 28-30 give, not lit's walking algorithm.
- `lit.local.cfg` overrides of `suffixes` (mentioned at line 21) live in other files and are not part of this model.
- `config.name` (line 11) is a constant with no behaviour, and `test_exec_root` (line 35) is commented out.
- Rejecting a repeated placeholder with a different value is not modelled, because the code only appends (line 59).
