/**
 * Resolution of the required tools (test/lit.cfg.py, lines 41-59).
 *
 * For each name in a fixed, ordered list the configuration asks a PATH
 * resolver (`shutil.which`) for the executable.  The first name the resolver
 * cannot find stops the configuration with a fatal error naming it; every name
 * found before it contributes the substitution `("%" + name, path)`.
 *
 * This module states what that loop computes, as functions of the tool list and
 * of the resolver, and proves the properties the configuration relies on.
 */
module Tools {
  import opened Wrappers

  /** One entry of lit's substitution list: a placeholder and its replacement. */
  type Substitution = (string, string)

  /** A PATH resolver: the full path of a named executable, or `None`. */
  type Resolver = string -> Option<string>

  /** The tools the test suite needs, in the order they are looked up. */
  const REQUIRED_TOOLS: seq<string> := ["FileCheck", "clang", "clang++"]

  /** How the configuration ends: normally, or with a fatal error naming a tool. */
  datatype Outcome = Configured | Fatal(tool: string)
  {
    /** The text handed to lit's `fatal`. */
    function Message(): (m: string)
      requires Fatal?
      ensures |m| > 6 + |tool| && m[..6] == "Tool '" && m[6..6 + |tool|] == tool
      ensures m[6 + |tool|] == '\''
    {
      "Tool '" + tool + "' not found in PATH. "
      + "Please ensure it is available in your environment (e.g., via nix-shell)."
    }
  }

  /** The placeholder under which a tool's path is substituted. */
  function Placeholder(name: string): string
  {
    "%" + name
  }

  /** No name occurs twice. */
  predicate Distinct(names: seq<string>)
  {
    forall i, j :: 0 <= i < j < |names| ==> names[i] != names[j]
  }

  /**
   * The position of the first tool the resolver cannot find, or `None` when it
   * finds them all.
   */
  function FirstMissing(tools: seq<string>, which: Resolver): (r: Option<nat>)
    ensures r.Some? ==> r.value < |tools| && which(tools[r.value]).None?
    ensures r.Some? ==> forall j :: 0 <= j < r.value ==> which(tools[j]).Some?
    ensures r.None? <==> forall j :: 0 <= j < |tools| ==> which(tools[j]).Some?
  {
    if tools == [] then None
    else if which(tools[0]).None? then Some(0)
    else match FirstMissing(tools[1..], which)
      case None => None
      case Some(k) => Some(k + 1)
  }

  /** How resolving `tools` in order ends; a fatal outcome names a listed tool that is missing. */
  function Resolve(tools: seq<string>, which: Resolver): (r: Outcome)
    ensures r.Fatal? ==> r.tool in tools && which(r.tool).None?
  {
    match FirstMissing(tools, which)
    case None => Configured
    case Some(k) => Fatal(tools[k])
  }

  /**
   * The substitutions the resolution loop appends before it stops: one for each
   * tool up to, and not including, the first missing one.
   */
  function ResolvedEntries(tools: seq<string>, which: Resolver): (r: seq<Substitution>)
    ensures |r| <= |tools|
  {
    if tools == [] then []
    else match which(tools[0])
      case None => []
      case Some(path) => [(Placeholder(tools[0]), path)] + ResolvedEntries(tools[1..], which)
  }

  /** Distinct names give distinct placeholders. */
  lemma PlaceholderInjective(a: string, b: string)
    ensures Placeholder(a) == Placeholder(b) <==> a == b
  {
    if Placeholder(a) == Placeholder(b) {
      assert a == Placeholder(a)[1..] && b == Placeholder(b)[1..];
    }
  }

  /**
   * The loop appends exactly one entry per tool it found: all of them on
   * success, the ones before the missing tool otherwise; entry `i` is the
   * placeholder of tool `i` with exactly the path the resolver returned.
   */
  lemma {:induction false} ResolvedEntriesSpec(tools: seq<string>, which: Resolver)
    ensures |ResolvedEntries(tools, which)| ==
      match FirstMissing(tools, which) case None => |tools| case Some(k) => k
    ensures forall i :: 0 <= i < |ResolvedEntries(tools, which)| ==>
      which(tools[i]).Some? &&
      ResolvedEntries(tools, which)[i] == (Placeholder(tools[i]), which(tools[i]).value)
  {
    if tools != [] && which(tools[0]).Some? {
      ResolvedEntriesSpec(tools[1..], which);
      var r := ResolvedEntries(tools, which);
      forall i | 0 < i < |r|
        ensures r[i] == ResolvedEntries(tools[1..], which)[i - 1]
      {
      }
    }
  }

  /** Tool `i` is the first missing one when the ones before it are found and it is not. */
  lemma MissingAt(tools: seq<string>, which: Resolver, i: nat)
    requires i < |tools| && which(tools[i]).None?
    requires forall j :: 0 <= j < i ==> which(tools[j]).Some?
    ensures FirstMissing(tools, which) == Some(i)
  {
  }

  /** The entries are determined by their count and their contents, as `ResolvedEntriesSpec` gives them. */
  lemma ResolvedEntriesUnique(tools: seq<string>, which: Resolver, s: seq<Substitution>)
    requires |s| == match FirstMissing(tools, which) case None => |tools| case Some(k) => k
    requires forall j :: 0 <= j < |s| ==> s[j] == (Placeholder(tools[j]), which(tools[j]).value)
    ensures s == ResolvedEntries(tools, which)
  {
    ResolvedEntriesSpec(tools, which);
  }

  /**
   * When tool `k` is missing, the resolver is consulted for tools `0..k` only:
   * any resolver that agrees on those names ends the same way and yields the
   * same entries, so the tools after `k` are never looked up.
   */
  lemma {:induction false} LookupStopsAtFirstMissing(tools: seq<string>, which: Resolver, other: Resolver, k: nat)
    requires FirstMissing(tools, which) == Some(k)
    requires forall j :: 0 <= j <= k < |tools| ==> other(tools[j]) == which(tools[j])
    ensures FirstMissing(tools, other) == Some(k)
    ensures ResolvedEntries(tools, other) == ResolvedEntries(tools, which)
  {
    assert other(tools[0]) == which(tools[0]);
    if k > 0 {
      assert FirstMissing(tools[1..], which) == Some(k - 1);
      forall j | 0 <= j <= k - 1 < |tools[1..]|
        ensures other(tools[1..][j]) == which(tools[1..][j])
      {
        assert tools[1..][j] == tools[j + 1];
      }
      LookupStopsAtFirstMissing(tools[1..], which, other, k - 1);
    }
  }

  /** When the tool names are distinct, so are the placeholders appended for them. */
  lemma PlaceholdersDistinct(tools: seq<string>, which: Resolver)
    requires Distinct(tools)
    ensures forall i, j :: 0 <= i < j < |ResolvedEntries(tools, which)| ==>
      ResolvedEntries(tools, which)[i].0 != ResolvedEntries(tools, which)[j].0
  {
    ResolvedEntriesSpec(tools, which);
    var r := ResolvedEntries(tools, which);
    forall i, j | 0 <= i < j < |r|
      ensures r[i].0 != r[j].0
    {
      PlaceholderInjective(tools[i], tools[j]);
    }
  }

  /**
   * A fatal outcome names the first tool the resolver cannot find, and no
   * entry is appended under that tool's placeholder.
   */
  lemma FatalNamesFirstMissing(tools: seq<string>, which: Resolver, k: nat)
    requires FirstMissing(tools, which) == Some(k)
    ensures Resolve(tools, which) == Fatal(tools[k])
    ensures which(tools[k]) == None
    ensures forall e :: e in ResolvedEntries(tools, which) ==> e.0 != Placeholder(tools[k])
  {
    ResolvedEntriesSpec(tools, which);
    var r := ResolvedEntries(tools, which);
    forall e | e in r
      ensures e.0 != Placeholder(tools[k])
    {
      var i :| 0 <= i < |r| && r[i] == e;
      PlaceholderInjective(tools[i], tools[k]);
    }
  }

  /** The outcome is `Fatal` exactly when some tool is missing. */
  lemma ResolveFatalIff(tools: seq<string>, which: Resolver)
    ensures Resolve(tools, which).Fatal? <==> exists j :: 0 <= j < |tools| && which(tools[j]).None?
    ensures Resolve(tools, which).Fatal? ==>
      Resolve(tools, which).tool in tools && which(Resolve(tools, which).tool).None?
  {
  }

  /** The three required tools have distinct names; in particular `clang` and `clang++` differ. */
  lemma RequiredToolsDistinct()
    ensures Distinct(REQUIRED_TOOLS)
    ensures Placeholder("clang") != Placeholder("clang++")
  {
  }
}
