/**
 * The discovery policy (test/lit.cfg.py, lines 21-23 and 28-31): which files
 * count as tests and which directories are kept out of the test suite.  Both
 * decisions look at names only, never at file contents.
 */
module Discovery {

  /** The file extensions treated as test files. */
  const TEST_SUFFIXES: seq<string> := [".cpp"]

  /** The directory names excluded from the test suite (auxiliary inputs). */
  const EXCLUDED_DIRS: seq<string> := ["Inputs"]

  /** `name` ends with `suffix`. */
  predicate EndsWith(name: string, suffix: string)
  {
    |suffix| <= |name| && name[|name| - |suffix|..] == suffix
  }

  /** A file is a candidate test when its name ends with one of the listed suffixes. */
  predicate IsTestFile(fileName: string, suffixes: seq<string>)
  {
    exists i :: 0 <= i < |suffixes| && EndsWith(fileName, suffixes[i])
  }

  /** A directory is skipped when its own name (its basename) is one of the excluded names. */
  predicate IsExcludedDir(dirName: string, excludes: seq<string>)
  {
    dirName in excludes
  }

  /**
   * A path below the test root, given as its components (directories first,
   * the file name last), names a test of the suite when the file is a
   * candidate and none of the directories on the way is excluded.
   */
  predicate InSuite(path: seq<string>, suffixes: seq<string>, excludes: seq<string>)
  {
    |path| > 0 && IsTestFile(path[|path| - 1], suffixes) &&
    forall i :: 0 <= i < |path| - 1 ==> !IsExcludedDir(path[i], excludes)
  }

  /**
   * Under this suite's policy a file is a test exactly when its name ends in
   * `.cpp`.  This spells out `IsTestFile` for this suite's suffix list; it adds
   * no fact independent of the predicate.
   */
  lemma TestFileIffCpp(fileName: string)
    ensures IsTestFile(fileName, TEST_SUFFIXES) <==>
      |fileName| >= 4 && fileName[|fileName| - 4..] == ".cpp"
  {
    if |fileName| >= 4 && fileName[|fileName| - 4..] == ".cpp" {
      assert EndsWith(fileName, TEST_SUFFIXES[0]);
    }
  }

  /**
   * Under this suite's policy a path is a test exactly when its file name ends
   * in `.cpp` and no directory on the path is called `Inputs`.  This spells out
   * `InSuite` for this suite's two lists; it adds no fact independent of it.
   */
  lemma InSuiteIff(path: seq<string>)
    requires |path| > 0
    ensures InSuite(path, TEST_SUFFIXES, EXCLUDED_DIRS) <==>
      EndsWith(path[|path| - 1], ".cpp") && "Inputs" !in path[..|path| - 1]
  {
    var dirs := path[..|path| - 1];
    if "Inputs" in dirs {
      var i :| 0 <= i < |dirs| && dirs[i] == "Inputs";
      assert IsExcludedDir(path[i], EXCLUDED_DIRS);
    }
    if EndsWith(path[|path| - 1], ".cpp") {
      assert EndsWith(path[|path| - 1], TEST_SUFFIXES[0]);
    }
    if InSuite(path, TEST_SUFFIXES, EXCLUDED_DIRS) {
      var i :| 0 <= i < |TEST_SUFFIXES| && EndsWith(path[|path| - 1], TEST_SUFFIXES[i]);
      assert i == 0;
    }
  }

  /** Anything below a directory called `Inputs`, at any depth, is outside the suite. */
  lemma ExcludedSubtree(dirs: seq<string>, k: nat, rest: seq<string>)
    requires k < |dirs| && dirs[k] == "Inputs"
    ensures !InSuite(dirs + rest, TEST_SUFFIXES, EXCLUDED_DIRS)
  {
    if |rest| > 0 {
      assert (dirs + rest)[k] == "Inputs";
    } else {
      assert dirs + rest == dirs;
      if k < |dirs| - 1 {
        assert IsExcludedDir((dirs + rest)[k], EXCLUDED_DIRS);
      } else {
        assert !EndsWith("Inputs", ".cpp");
      }
    }
  }

  /** `a.cpp` at the root is discovered; `Inputs/b.cpp` and `a.h` are not. */
  lemma DiscoveryExamples()
    ensures InSuite(["a.cpp"], TEST_SUFFIXES, EXCLUDED_DIRS)
    ensures InSuite(["sub", "a.cpp"], TEST_SUFFIXES, EXCLUDED_DIRS)
    ensures !InSuite(["Inputs", "b.cpp"], TEST_SUFFIXES, EXCLUDED_DIRS)
    ensures !InSuite(["a.h"], TEST_SUFFIXES, EXCLUDED_DIRS)
  {
    InSuiteIff(["a.cpp"]);
    InSuiteIff(["sub", "a.cpp"]);
    InSuiteIff(["a.h"]);
    ExcludedSubtree(["Inputs"], 0, ["b.cpp"]);
    assert ["Inputs"] + ["b.cpp"] == ["Inputs", "b.cpp"];
  }
}
