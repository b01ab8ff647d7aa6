/**
 * Build-version allocation of wikimap/Builder/Creator.py: the next build
 * index, the new build directory `builds_dir/<prefix><index>` and its
 * creation, and the index of the baseline build.  The build explorer that
 * scans the builds directory is not part of this model: the index of the
 * last build is a field, and `IsLatest` says what it is meant to be.
 */
module Creator {
  import opened Wrappers
  import Paths
  import Manager

  // ---------------------------------------------------------------------
  // decimal strings, for `str(index)`

  predicate IsDigit(c: char)
  {
    '0' <= c <= '9'
  }

  function Digit(d: nat): (c: char)
    requires d < 10
    ensures IsDigit(c)
  {
    ['0', '1', '2', '3', '4', '5', '6', '7', '8', '9'][d]
  }

  function DigitValue(c: char): (d: nat)
    requires IsDigit(c)
    ensures d < 10
  {
    c as int - '0' as int
  }

  /** Python's `str(n)` for a non-negative integer: decimal, no leading zeros. */
  function Decimal(n: nat): (s: string)
    ensures |s| > 0 && (forall i :: 0 <= i < |s| ==> IsDigit(s[i]))
    ensures s[0] == '0' ==> n == 0
  {
    if n < 10 then [Digit(n)] else Decimal(n / 10) + [Digit(n % 10)]
  }

  /** The number a string of digits denotes. */
  function DecimalValue(s: string): nat
    requires forall i :: 0 <= i < |s| ==> IsDigit(s[i])
  {
    if s == [] then 0 else 10 * DecimalValue(s[..|s| - 1]) + DigitValue(s[|s| - 1])
  }

  lemma DigitRoundTrip(d: nat)
    requires d < 10
    ensures DigitValue(Digit(d)) == d
  {
  }

  /** Reading back the decimal string of `n` gives `n`. */
  lemma {:induction false} DecimalRoundTrip(n: nat)
    ensures DecimalValue(Decimal(n)) == n
  {
    var s := Decimal(n);
    if n < 10 {
      assert s[..0] == [];
      DigitRoundTrip(n);
    } else {
      DecimalRoundTrip(n / 10);
      assert s[..|s| - 1] == Decimal(n / 10);
      DigitRoundTrip(n % 10);
    }
  }

  /** Different indices have different decimal strings. */
  lemma DecimalInjective(m: nat, n: nat)
    requires Decimal(m) == Decimal(n)
    ensures m == n
  {
    DecimalRoundTrip(m);
    DecimalRoundTrip(n);
  }

  // ---------------------------------------------------------------------
  // indices

  /** `last` is the largest of the existing build versions, or `None` when there are none. */
  ghost predicate IsLatest(last: Option<nat>, versions: set<nat>)
  {
    (last.None? <==> versions == {}) &&
    (last.Some? ==> last.value in versions && forall v :: v in versions ==> v <= last.value)
  }

  /** `_get_new_build_index`: 0 after no build, else one past the last. */
  function NewBuildIndex(last: Option<nat>): nat
  {
    if last.None? then 0 else last.value + 1
  }

  /** The new index is larger than every existing version, so it is unused; a gap does not matter. */
  lemma NewBuildIndexFresh(last: Option<nat>, versions: set<nat>)
    requires IsLatest(last, versions)
    ensures last.None? ==> NewBuildIndex(last) == 0
    ensures last.Some? ==> NewBuildIndex(last) == last.value + 1
    ensures forall v :: v in versions ==> v < NewBuildIndex(last)
    ensures NewBuildIndex(last) !in versions
  {
  }

  /** Allocation keeps contiguous versions 0..n-1 contiguous: the next one is n. */
  lemma NewBuildIndexContiguous(last: Option<nat>, versions: set<nat>, n: nat)
    requires IsLatest(last, versions)
    requires forall v :: v in versions <==> v < n
    ensures NewBuildIndex(last) == n
  {
    if n > 0 {
      assert n - 1 in versions;
    }
  }

  /** The two examples of the version scheme: no builds gives 0, versions {0, 1, 3} give 4. */
  lemma NewBuildIndexExamples()
    ensures NewBuildIndex(None) == 0
    ensures forall last :: IsLatest(last, {0, 1, 3}) ==> NewBuildIndex(last) == 4
  {
    forall last | IsLatest(last, {0, 1, 3}) ensures NewBuildIndex(last) == 4 {
      assert 3 in {0, 1, 3};
    }
  }

  /** `base or last`: an explicit index counts only when it is truthy, so an index of 0 means "not given". */
  function BaseIndex(requested: Option<nat>, last: Option<nat>): (r: Option<nat>)
    ensures requested.Some? && requested.value != 0 ==> r == requested
    ensures r == requested || r == last
    ensures r != last ==> r.Some? && r.value != 0
  {
    if requested.Some? && requested.value != 0 then requested else last
  }

  /** Asking for build 0 is the same as asking for no build: both give the last build. */
  lemma ZeroMeansLast(last: Option<nat>)
    ensures BaseIndex(Some(0), last) == BaseIndex(None, last) == last
  {
  }

  /**
   * When the requested index, if any, names an existing build, the baseline
   * is an existing build, and there is a baseline exactly when some build
   * exists.
   */
  lemma BaseIndexExists(requested: Option<nat>, last: Option<nat>, versions: set<nat>)
    requires IsLatest(last, versions)
    requires requested.Some? ==> requested.value in versions
    ensures BaseIndex(requested, last).Some? <==> versions != {}
    ensures BaseIndex(requested, last).Some? ==> BaseIndex(requested, last).value in versions
  {
  }

  /** The directory `builds_dir/<prefix><index>`. */
  function BuildDir(buildsDir: string, prefix: string, index: nat): string
  {
    Paths.Join(buildsDir, prefix + Decimal(index))
  }

  /** Distinct indices name distinct build directories. */
  lemma BuildDirInjective(buildsDir: string, prefix: string, m: nat, n: nat)
    requires BuildDir(buildsDir, prefix, m) == BuildDir(buildsDir, prefix, n)
    ensures m == n
  {
    var a, b := prefix + Decimal(m), prefix + Decimal(n);
    assert Paths.IsAbsolute(a) <==> Paths.IsAbsolute(b) by {
      if prefix == [] {
        assert a == Decimal(m) && b == Decimal(n);
      } else {
        assert a[0] == prefix[0] && b[0] == prefix[0];
      }
    }
    if !Paths.IsAbsolute(a) {
      Paths.JoinInjective(buildsDir, a, b);
    }
    assert Decimal(m) == a[|prefix|..] && Decimal(n) == b[|prefix|..];
    DecimalInjective(m, n);
  }

  // ---------------------------------------------------------------------
  // the creator object

  class BuildCreator {
    const buildsDir: string
    const buildPrefix: string
    /** the baseline index asked for on the command line, if any */
    const baseBuildIndex: Option<nat>
    /** what the explorer reports as the last build's index */
    const lastBuildIndex: Option<nat>
    /** the explorer's `get_build_dir` and `get_config` */
    const buildDirOf: Option<nat> -> Option<string>
    const configOf: Option<nat> -> map<string, Manager.Config>
    /** the directories that exist on disk */
    var directories: set<string>

    /** The parts of `__init__` this model keeps: the directories, prefix and baseline index. */
    constructor(buildsDir: string, buildPrefix: string, baseBuildIndex: Option<nat>, lastBuildIndex: Option<nat>,
                buildDirOf: Option<nat> -> Option<string>, configOf: Option<nat> -> map<string, Manager.Config>,
                directories: set<string>)
      ensures this.buildsDir == buildsDir && this.buildPrefix == buildPrefix
      ensures this.baseBuildIndex == baseBuildIndex && this.lastBuildIndex == lastBuildIndex
      ensures this.buildDirOf == buildDirOf && this.configOf == configOf
      ensures this.directories == directories
    {
      this.buildsDir := buildsDir;
      this.buildPrefix := buildPrefix;
      this.baseBuildIndex := baseBuildIndex;
      this.lastBuildIndex := lastBuildIndex;
      this.buildDirOf := buildDirOf;
      this.configOf := configOf;
      this.directories := directories;
    }

    /** `_get_base_build_dir` */
    function BaseBuildDir(): Option<string>
    {
      buildDirOf(BaseIndex(baseBuildIndex, lastBuildIndex))
    }

    /** `_get_base_config` */
    function BaseConfig(): map<string, Manager.Config>
    {
      configOf(BaseIndex(baseBuildIndex, lastBuildIndex))
    }

    /**
     * The baseline directory and configuration come from the same build:
     * the requested one when it is truthy, else the last one.
     */
    lemma BaselineFromOneBuild()
      ensures var i := if baseBuildIndex.Some? && baseBuildIndex.value != 0 then baseBuildIndex else lastBuildIndex;
        BaseBuildDir() == buildDirOf(i) && BaseConfig() == configOf(i)
    {
    }

    /** `_get_new_build_index` */
    function NewIndex(): nat
    {
      NewBuildIndex(lastBuildIndex)
    }

    /** `os.makedirs`, which fails on a directory that already exists. */
    method MakeDirs(path: string)
      requires path !in directories
      modifies this`directories
      ensures directories == old(directories) + {path}
    {
      directories := directories + {path};
    }

    /**
     * `_make_new_build_dir`: create the builds directory and the new build
     * directory, each only when it is absent.  Both exist afterwards and
     * nothing else is created, so, as long as the last index stays the same,
     * a second call changes nothing.
     */
    method MakeNewBuildDir() returns (newBuildDir: string)
      modifies this`directories
      ensures newBuildDir == BuildDir(buildsDir, buildPrefix, NewIndex())
      ensures directories == old(directories) + {buildsDir, newBuildDir}
      ensures old({buildsDir, newBuildDir} <= directories) ==> directories == old(directories)
    {
      newBuildDir := Paths.Join(buildsDir, buildPrefix + Decimal(NewIndex()));
      if buildsDir !in directories {
        MakeDirs(buildsDir);
      }
      if newBuildDir !in directories {
        MakeDirs(newBuildDir);
      }
    }
  }
}
