/**
 * The configuration step of the test suite (test/lit.cfg.py): the object lit
 * hands to the script, and the script's effect on it.
 *
 * The PATH search, the host-supplied shared-library extension and directory,
 * lit's `use_lit_shell` flag and the directory of the configuration file are
 * parameters of `Configure`; lit's `fatal`, which ends the process, becomes the
 * `Fatal` outcome.
 */
module LitConfig {
  import opened Wrappers
  import opened Tools
  import Discovery

  /** lit's shell-test format; `executeExternal` selects the host's shell over lit's own. */
  datatype TestFormat = ShTest(executeExternal: bool)

  /** The two host-supplied entries, registered after the tools. */
  function SharedLibEntries(shlibExt: string, shlibDir: string): seq<Substitution>
  {
    [("%shlibext", shlibExt), ("%shlibdir", shlibDir)]
  }

  /**
   * Everything the script appends to `config.substitutions`: the entries of the
   * tools found before any missing one and, only if none is missing, the two
   * shared-library entries.
   */
  function TableEntries(which: Resolver, shlibExt: string, shlibDir: string): (r: seq<Substitution>)
    ensures ResolvedEntries(REQUIRED_TOOLS, which) <= r
    ensures |r| <= |REQUIRED_TOOLS| + 2
  {
    ResolvedEntries(REQUIRED_TOOLS, which)
    + (if Resolve(REQUIRED_TOOLS, which) == Configured then SharedLibEntries(shlibExt, shlibDir) else [])
  }

  /** The tools the resolver is asked about: all of them, or up to and including the missing one. */
  function LookedUp(which: Resolver): seq<string>
  {
    match FirstMissing(REQUIRED_TOOLS, which)
    case None => REQUIRED_TOOLS
    case Some(k) => REQUIRED_TOOLS[..k + 1]
  }

  /**
   * On success the table grows by one entry per required tool, in list order,
   * each with exactly the resolved path, followed by `%shlibext` and then
   * `%shlibdir` with the host's values verbatim; all placeholders differ.
   */
  lemma ConfiguredTable(which: Resolver, shlibExt: string, shlibDir: string)
    requires Resolve(REQUIRED_TOOLS, which) == Configured
    ensures |TableEntries(which, shlibExt, shlibDir)| == |REQUIRED_TOOLS| + 2
    ensures forall i :: 0 <= i < |REQUIRED_TOOLS| ==>
      which(REQUIRED_TOOLS[i]).Some? &&
      TableEntries(which, shlibExt, shlibDir)[i] == (Placeholder(REQUIRED_TOOLS[i]), which(REQUIRED_TOOLS[i]).value)
    ensures TableEntries(which, shlibExt, shlibDir)[3] == ("%shlibext", shlibExt)
    ensures TableEntries(which, shlibExt, shlibDir)[4] == ("%shlibdir", shlibDir)
    ensures forall i, j :: 0 <= i < j < |TableEntries(which, shlibExt, shlibDir)| ==>
      TableEntries(which, shlibExt, shlibDir)[i].0 != TableEntries(which, shlibExt, shlibDir)[j].0
  {
    ResolvedEntriesSpec(REQUIRED_TOOLS, which);
    var r := ResolvedEntries(REQUIRED_TOOLS, which);
    var t := TableEntries(which, shlibExt, shlibDir);
    assert r == [(Placeholder("FileCheck"), which("FileCheck").value),
                 (Placeholder("clang"), which("clang").value),
                 (Placeholder("clang++"), which("clang++").value)];
    assert t == r + SharedLibEntries(shlibExt, shlibDir);
    assert Placeholder("FileCheck") == "%FileCheck";
    assert Placeholder("clang") == "%clang";
    assert Placeholder("clang++") == "%clang++";
  }

  /**
   * On a fatal outcome the error names the first tool the resolver cannot find;
   * the table then holds just the entries of the tools before it, none for the
   * missing tool and no shared-library entries.
   */
  lemma FatalTable(which: Resolver, shlibExt: string, shlibDir: string)
    requires Resolve(REQUIRED_TOOLS, which).Fatal?
    ensures FirstMissing(REQUIRED_TOOLS, which).Some?
    ensures var k := FirstMissing(REQUIRED_TOOLS, which).value;
      Resolve(REQUIRED_TOOLS, which).tool == REQUIRED_TOOLS[k] &&
      which(REQUIRED_TOOLS[k]) == None &&
      (forall j :: 0 <= j < k ==> which(REQUIRED_TOOLS[j]).Some?) &&
      TableEntries(which, shlibExt, shlibDir) == ResolvedEntries(REQUIRED_TOOLS, which) &&
      |TableEntries(which, shlibExt, shlibDir)| == k &&
      LookedUp(which) == REQUIRED_TOOLS[..k + 1]
    ensures forall e :: e in TableEntries(which, shlibExt, shlibDir) ==>
      e.0 != Placeholder(Resolve(REQUIRED_TOOLS, which).tool) && e.0 != "%shlibext" && e.0 != "%shlibdir"
  {
    var k := FirstMissing(REQUIRED_TOOLS, which).value;
    RequiredToolsDistinct();
    ResolvedEntriesSpec(REQUIRED_TOOLS, which);
    FatalNamesFirstMissing(REQUIRED_TOOLS, which, k);
    var r := ResolvedEntries(REQUIRED_TOOLS, which);
    forall e | e in r
      ensures e.0 != "%shlibext" && e.0 != "%shlibdir"
    {
      var i :| 0 <= i < |r| && r[i] == e;
      assert e.0 == Placeholder(REQUIRED_TOOLS[i]);
      assert Placeholder("FileCheck") == "%FileCheck";
      assert Placeholder("clang") == "%clang";
      assert Placeholder("clang++") == "%clang++";
    }
  }

  /**
   * lit's `TestingConfig` as far as this script touches it.  The script runs
   * once, before any test, and only appends to `substitutions`.
   */
  class Config {
    var substitutions: seq<Substitution>
    var suffixes: seq<string>
    var excludes: seq<string>
    var testSourceRoot: string
    var testFormat: Option<TestFormat>

    /** The object lit creates, holding whatever substitutions lit put there first. */
    constructor (initial: seq<Substitution>)
      ensures substitutions == initial
      ensures suffixes == [] && excludes == [] && testSourceRoot == "" && testFormat == None
    {
      substitutions := initial;
      suffixes := [];
      excludes := [];
      testSourceRoot := "";
      testFormat := None;
    }

    /** `config.substitutions.append(entry)`: the list only grows at its end. */
    method Append(entry: Substitution)
      modifies this`substitutions
      ensures substitutions == old(substitutions) + [entry]
    {
      substitutions := substitutions + [entry];
    }

    /** `config.test_format = format`: a later assignment replaces an earlier one. */
    method SetTestFormat(format: TestFormat)
      modifies this`testFormat
      ensures testFormat == Some(format)
    {
      testFormat := Some(format);
    }

    /**
     * The loop over the required tools (lines 49-59): look each one up in
     * order, stop at the first one `which` cannot find, append `("%" + name,
     * path)` for each one found.  `lookedUp` records, in order, the names the
     * resolver was asked about.
     */
    method ResolveTools(which: Resolver) returns (outcome: Outcome, ghost lookedUp: seq<string>)
      modifies this`substitutions
      ensures outcome == Resolve(REQUIRED_TOOLS, which)
      ensures substitutions == old(substitutions) + ResolvedEntries(REQUIRED_TOOLS, which)
      ensures lookedUp == LookedUp(which)
    {
      ghost var appended: seq<Substitution> := [];
      lookedUp := [];
      for i := 0 to |REQUIRED_TOOLS|
        invariant forall j :: 0 <= j < i ==> which(REQUIRED_TOOLS[j]).Some?
        invariant lookedUp == REQUIRED_TOOLS[..i]
        invariant substitutions == old(substitutions) + appended && |appended| == i
        invariant forall j :: 0 <= j < i ==>
          appended[j] == (Placeholder(REQUIRED_TOOLS[j]), which(REQUIRED_TOOLS[j]).value)
      {
        var name := REQUIRED_TOOLS[i];
        var path := which(name);
        lookedUp := lookedUp + [name];
        if path.None? {
          MissingAt(REQUIRED_TOOLS, which, i);
          ResolvedEntriesUnique(REQUIRED_TOOLS, which, appended);
          outcome := Fatal(name);
          return;
        }
        Append((Placeholder(name), path.value));
        appended := appended + [(Placeholder(name), path.value)];
      }
      assert FirstMissing(REQUIRED_TOOLS, which) == None;
      ResolvedEntriesUnique(REQUIRED_TOOLS, which, appended);
      assert lookedUp == REQUIRED_TOOLS;
      outcome := Configured;
    }

    /**
     * The whole script.  `which` is the PATH search, `useLitShell` lit's
     * `use_lit_shell`, `configDir` the directory of the script, `shlibExt` and
     * `shlibDir` the host's shared-library extension and directory.
     */
    method Configure(which: Resolver, useLitShell: bool, configDir: string, shlibExt: string, shlibDir: string)
      returns (outcome: Outcome, ghost lookedUp: seq<string>)
      modifies this
      ensures outcome == Resolve(REQUIRED_TOOLS, which)
      ensures substitutions == old(substitutions) + TableEntries(which, shlibExt, shlibDir)
      ensures lookedUp == LookedUp(which)
      ensures testFormat == Some(ShTest(true))
      ensures suffixes == Discovery.TEST_SUFFIXES && excludes == Discovery.EXCLUDED_DIRS
      ensures testSourceRoot == configDir
    {
      SetTestFormat(ShTest(!useLitShell));
      suffixes := Discovery.TEST_SUFFIXES;
      testSourceRoot := configDir;
      excludes := Discovery.EXCLUDED_DIRS;
      SetTestFormat(ShTest(true));
      outcome, lookedUp := ResolveTools(which);
      if outcome.Fatal? {
        return;
      }
      Append(("%shlibext", shlibExt));
      Append(("%shlibdir", shlibDir));
    }
  }

  /**
   * Whatever `useLitShell` is, the suite runs its RUN lines in the host's
   * shell: the second assignment of the test format overrides the first.
   * This restates the `testFormat` clause of `Configure` from a caller's side.
   */
  method ConfigureSelectsExternalShell(initial: seq<Substitution>, which: Resolver, useLitShell: bool,
                                       configDir: string, shlibExt: string, shlibDir: string)
    returns (format: Option<TestFormat>)
    ensures format == Some(ShTest(true))
  {
    var config := new Config(initial);
    var _, _ := config.Configure(which, useLitShell, configDir, shlibExt, shlibDir);
    format := config.testFormat;
  }
}
