/**
 * The incremental build engine of wikimap/Builder/Manager.py.  Jobs are
 * visited in pipeline order; each one is run when it is forced, when one of
 * its inputs has been changed earlier in this build, when its configuration
 * differs from the previous build's snapshot, or when the previous build
 * lacks one of its outputs, and skipped otherwise.  Running a job marks its
 * outputs as changed before its action is invoked; skipping it links each
 * previous-build output to the corresponding new-build output.  Whatever
 * happens in the loop, the new configuration is saved at the end.
 *
 * The filesystem is abstracted: the files present in the previous build are
 * a set, and the links made are recorded as a sequence of pairs.
 */
module Manager {
  import opened Wrappers
  import Paths

  /** A job's configuration: parameter name to value. */
  type Config = map<string, int>

  /** The job properties the engine looks at. */
  datatype Property = Forced

  /** How a job's action ends: it returns, or it raises (a failure or an interrupt). */
  datatype ActionResult = Completed | Raised

  /**
   * A job as the engine sees it.  `inputs` is `job.inputs()`; `outputs(None)`
   * is `job.outputs()` and `outputs(Some(d))` is `job.outputs(base=d)`.
   * `action` is the opaque callable that `job.run()` invokes.
   */
  datatype Job = Job(
    number: nat,
    name: string,
    properties: set<Property>,
    config: Config,
    inputs: seq<string>,
    outputs: Option<string> -> seq<string>,
    action: (seq<string>, seq<string>, Config) -> ActionResult)

  /** What the engine reads of the previous build. */
  datatype Baseline = Baseline(
    previousConfig: map<string, Config>,
    previousBuildDir: Option<string>,
    previousFiles: set<string>)

  /** Which of `job.run()` and `job.skip()` the loop called for a job. */
  datatype Decision = Ran | Skipped

  /** A link from a previous-build path to a new-build path. */
  type Link = (string, string)

  // ---------------------------------------------------------------------
  // the decision

  /** `_is_forced` */
  predicate IsForced(job: Job)
  {
    Forced in job.properties
  }

  /** `_inputs_changed`: some input is already in the changed set. */
  predicate InputsChanged(job: Job, changed: set<string>)
  {
    exists i :: 0 <= i < |job.inputs| && job.inputs[i] in changed
  }

  /** `previous_config.get(name, {})` */
  function PreviousConfigOf(b: Baseline, name: string): Config
  {
    if name in b.previousConfig then b.previousConfig[name] else map[]
  }

  /** `_config_changed` */
  predicate ConfigChanged(job: Job, b: Baseline)
  {
    PreviousConfigOf(b, job.name) != job.config
  }

  /** `_outputs_computed`: a previous build exists and holds every output. */
  predicate OutputsComputed(job: Job, b: Baseline)
  {
    Paths.Truthy(b.previousBuildDir) &&
    forall o :: o in job.outputs(b.previousBuildDir) ==> o in b.previousFiles
  }

  /** `_should_run`, in its short-circuit order. */
  predicate ShouldRun(job: Job, changed: set<string>, b: Baseline)
  {
    IsForced(job) || InputsChanged(job, changed) || ConfigChanged(job, b) || !OutputsComputed(job, b)
  }

  /** A job with an empty configuration and no snapshot entry has not changed configuration. */
  lemma EmptyConfigUnchanged(job: Job, b: Baseline)
    requires job.name !in b.previousConfig && job.config == map[]
    ensures !ConfigChanged(job, b)
  {
  }

  /** Without a previous build directory (`None` or empty), every job must run. */
  lemma NoPreviousBuildRuns(job: Job, changed: set<string>, b: Baseline)
    requires !Paths.Truthy(b.previousBuildDir)
    ensures !OutputsComputed(job, b) && ShouldRun(job, changed, b)
  {
  }

  // ---------------------------------------------------------------------
  // running and skipping

  /** The paths of a list, as a set: what `set.update` adds. */
  function Members(s: seq<string>): set<string>
  {
    set x | x in s
  }

  /** Python's `zip`: pairs at equal positions, as many as the shorter list has. */
  function Zip(a: seq<string>, b: seq<string>): (r: seq<Link>)
    ensures |r| == if |a| < |b| then |a| else |b|
    ensures forall i :: 0 <= i < |r| ==> r[i] == (a[i], b[i])
  {
    if a == [] || b == [] then [] else [(a[0], b[0])] + Zip(a[1..], b[1..])
  }

  /** What `job.run()` returns or raises: the action called on the job's inputs, outputs and configuration. */
  function Outcome(job: Job): ActionResult
  {
    job.action(job.inputs, job.outputs(None), job.config)
  }

  /** The links `_skip_job` makes, from the previous build's outputs to the new ones. */
  function SkipLinks(job: Job, b: Baseline): seq<Link>
  {
    Zip(job.outputs(b.previousBuildDir), job.outputs(None))
  }

  /** The engine's state during the loop: the changed set, what was done, and whether the loop stopped. */
  datatype Progress = Progress(changed: set<string>, decisions: seq<Decision>, links: seq<Link>, aborted: bool)

  const Start := Progress({}, [], [], false)

  /** One turn of the loop. */
  function Step(b: Baseline, job: Job, p: Progress): Progress
  {
    if ShouldRun(job, p.changed, b) then
      Progress(p.changed + Members(job.outputs(None)), p.decisions + [Ran], p.links, Outcome(job) == Raised)
    else
      Progress(p.changed, p.decisions + [Skipped], p.links + SkipLinks(job, b), false)
  }

  /** The loop over the remaining jobs; it stops after a job that raised. */
  function Visit(b: Baseline, jobs: seq<Job>, p: Progress): Progress
  {
    if jobs == [] || p.aborted then p else Visit(b, jobs[1..], Step(b, jobs[0], p))
  }

  // ---------------------------------------------------------------------
  // properties of the loop

  /** Visiting a concatenation visits the first part, then the second. */
  lemma {:induction false} VisitAppend(b: Baseline, xs: seq<Job>, ys: seq<Job>, p: Progress)
    ensures Visit(b, xs + ys, p) == Visit(b, ys, Visit(b, xs, p))
  {
    if xs == [] {
      assert xs + ys == ys;
    } else if p.aborted {
    } else {
      assert (xs + ys)[1..] == xs[1..] + ys;
      VisitAppend(b, xs[1..], ys, Step(b, xs[0], p));
    }
  }

  /**
   * The record of decisions only grows, one entry per job reached; the loop
   * reaches every job unless it stops, and it stops right after a job that ran
   * and raised.  The changed set only grows, and the links only grow.
   */
  lemma {:induction false} VisitShape(b: Baseline, jobs: seq<Job>, p: Progress)
    ensures var t := Visit(b, jobs, p);
      |p.decisions| <= |t.decisions| <= |p.decisions| + |jobs| &&
      t.decisions[..|p.decisions|] == p.decisions &&
      p.changed <= t.changed &&
      |p.links| <= |t.links| && t.links[..|p.links|] == p.links &&
      (p.aborted ==> t == p) &&
      (!p.aborted && !t.aborted ==> |t.decisions| == |p.decisions| + |jobs|) &&
      (!p.aborted && t.aborted ==>
        |p.decisions| < |t.decisions| &&
        t.decisions[|t.decisions| - 1] == Ran &&
        Outcome(jobs[|t.decisions| - |p.decisions| - 1]) == Raised)
  {
    if jobs != [] && !p.aborted {
      var q := Step(b, jobs[0], p);
      VisitShape(b, jobs[1..], q);
      var t := Visit(b, jobs, p);
      assert t == Visit(b, jobs[1..], q);
      assert q.decisions[..|p.decisions|] == p.decisions;
      assert t.decisions[..|p.decisions|] == t.decisions[..|q.decisions|][..|p.decisions|];
      assert t.links[..|p.links|] == t.links[..|q.links|][..|p.links|];
      if q.aborted {
        assert t == q;
      }
    }
  }

  /** The first `n` jobs, then the rest. */
  lemma PrefixSplit(b: Baseline, jobs: seq<Job>, n: nat, p: Progress)
    requires n <= |jobs|
    ensures Visit(b, jobs, p) == Visit(b, jobs[n..], Visit(b, jobs[..n], p))
  {
    assert jobs == jobs[..n] + jobs[n..];
    VisitAppend(b, jobs[..n], jobs[n..], p);
  }

  /** One more job: a step, unless the loop has already stopped. */
  lemma PrefixExtend(b: Baseline, jobs: seq<Job>, k: nat, p: Progress)
    requires k < |jobs|
    ensures var q := Visit(b, jobs[..k], p);
      Visit(b, jobs[..k + 1], p) == if q.aborted then q else Step(b, jobs[k], q)
  {
    assert jobs[..k + 1] == jobs[..k] + [jobs[k]];
    VisitAppend(b, jobs[..k], [jobs[k]], p);
    assert [jobs[k]][1..] == [];
  }

  /** A job the loop reaches comes after jobs that did not stop it, one decision each. */
  lemma ReachedAt(b: Baseline, jobs: seq<Job>, k: nat)
    requires k < |Visit(b, jobs, Start).decisions|
    ensures k < |jobs|
    ensures !Visit(b, jobs[..k], Start).aborted && |Visit(b, jobs[..k], Start).decisions| == k
  {
    VisitShape(b, jobs, Start);
    var before := Visit(b, jobs[..k], Start);
    VisitShape(b, jobs[..k], Start);
    PrefixSplit(b, jobs, k, Start);
  }

  /** The decisions of a prefix of the jobs are a prefix of the decisions. */
  lemma DecisionsOfPrefix(b: Baseline, jobs: seq<Job>, n: nat)
    requires n <= |jobs|
    ensures var pre, t := Visit(b, jobs[..n], Start).decisions, Visit(b, jobs, Start).decisions;
      |pre| <= |t| && t[..|pre|] == pre
  {
    PrefixSplit(b, jobs, n, Start);
    VisitShape(b, jobs[n..], Visit(b, jobs[..n], Start));
  }

  /**
   * The decision recorded for job `k` is the run-or-skip rule applied to the
   * changed set left by the jobs before it.
   */
  lemma DecisionAt(b: Baseline, jobs: seq<Job>, k: nat)
    requires k < |Visit(b, jobs, Start).decisions|
    ensures k < |jobs|
    ensures var before := Visit(b, jobs[..k], Start);
      !before.aborted && |before.decisions| == k &&
      Visit(b, jobs[..k + 1], Start) == Step(b, jobs[k], before) &&
      (Visit(b, jobs, Start).decisions[k] == Ran <==> ShouldRun(jobs[k], before.changed, b))
  {
    ReachedAt(b, jobs, k);
    PrefixExtend(b, jobs, k, Start);
    DecisionsOfPrefix(b, jobs, k + 1);
    var after := Visit(b, jobs[..k + 1], Start).decisions;
    assert Visit(b, jobs, Start).decisions[k] == after[k];
  }

  /** The changed set after the first `n` jobs contains the one after the first `m <= n`. */
  lemma ChangedGrows(b: Baseline, jobs: seq<Job>, m: nat, n: nat)
    requires m <= n <= |jobs|
    ensures Visit(b, jobs[..m], Start).changed <= Visit(b, jobs[..n], Start).changed
  {
    assert jobs[..n] == jobs[..m] + jobs[m..n];
    VisitAppend(b, jobs[..m], jobs[m..n], Start);
    VisitShape(b, jobs[m..n], Visit(b, jobs[..m], Start));
  }

  /** Running a job marks all of its new-build outputs as changed, for the rest of the build. */
  lemma RanOutputsChanged(b: Baseline, jobs: seq<Job>, k: nat, n: nat)
    requires k < |Visit(b, jobs, Start).decisions|
    requires Visit(b, jobs, Start).decisions[k] == Ran
    requires k < n <= |jobs|
    ensures Members(jobs[k].outputs(None)) <= Visit(b, jobs[..n], Start).changed
  {
    DecisionAt(b, jobs, k);
    ChangedGrows(b, jobs, k + 1, n);
  }

  /**
   * Forward invalidation: when job `k` runs and one of its outputs is an
   * input of a later job `j` that the loop reaches, job `j` runs too.
   */
  lemma ForwardInvalidation(b: Baseline, jobs: seq<Job>, k: nat, j: nat, o: string)
    requires k < j < |jobs| && j < |Visit(b, jobs, Start).decisions|
    requires Visit(b, jobs, Start).decisions[k] == Ran
    requires o in jobs[k].outputs(None) && o in jobs[j].inputs
    ensures Visit(b, jobs, Start).decisions[j] == Ran
  {
    DecisionAt(b, jobs, j);
    RanOutputsChanged(b, jobs, k, j);
    var i :| 0 <= i < |jobs[j].inputs| && jobs[j].inputs[i] == o;
    assert InputsChanged(jobs[j], Visit(b, jobs[..j], Start).changed);
  }

  /**
   * A job that is forced, whose configuration differs from the snapshot, or
   * whose outputs the previous build lacks runs when the loop reaches it,
   * whatever has changed before it.
   */
  lemma ForcedReconfiguredOrMissingRuns(b: Baseline, jobs: seq<Job>, k: nat)
    requires k < |jobs| && k < |Visit(b, jobs, Start).decisions|
    requires IsForced(jobs[k]) || PreviousConfigOf(b, jobs[k].name) != jobs[k].config ||
      !Paths.Truthy(b.previousBuildDir) ||
      (exists o :: o in jobs[k].outputs(b.previousBuildDir) && o !in b.previousFiles)
    ensures Visit(b, jobs, Start).decisions[k] == Ran
  {
    DecisionAt(b, jobs, k);
  }

  /**
   * A job that runs and raises ends the build: the loop records no decision
   * after it and reports that it stopped.
   */
  lemma RaisedAborts(b: Baseline, jobs: seq<Job>, k: nat)
    requires k < |jobs| && k < |Visit(b, jobs, Start).decisions|
    requires Visit(b, jobs, Start).decisions[k] == Ran && Outcome(jobs[k]) == Raised
    ensures Visit(b, jobs, Start).aborted && |Visit(b, jobs, Start).decisions| == k + 1
  {
    DecisionAt(b, jobs, k);
    PrefixSplit(b, jobs, k + 1, Start);
    assert Visit(b, jobs[..k + 1], Start).aborted;
  }

  /** A build in which no job raises reaches every job and does not stop. */
  lemma {:induction false} NoRaiseCompletes(b: Baseline, jobs: seq<Job>, p: Progress)
    requires !p.aborted
    requires forall j :: 0 <= j < |jobs| ==> Outcome(jobs[j]) == Completed
    ensures !Visit(b, jobs, p).aborted && |Visit(b, jobs, p).decisions| == |p.decisions| + |jobs|
  {
    if jobs != [] {
      var q := Step(b, jobs[0], p);
      assert !q.aborted;
      forall j | 0 <= j < |jobs| - 1 ensures Outcome(jobs[1..][j]) == Completed {
        assert jobs[1..][j] == jobs[j + 1];
      }
      NoRaiseCompletes(b, jobs[1..], q);
    }
  }

  /**
   * A skipped job changes nothing in the changed set and appends, pairwise
   * and in order, a link from each previous-build output to the new-build
   * output at the same position.
   */
  lemma SkippedJobLinks(b: Baseline, jobs: seq<Job>, k: nat)
    requires k < |jobs| && k < |Visit(b, jobs, Start).decisions|
    requires Visit(b, jobs, Start).decisions[k] == Skipped
    ensures var before, after := Visit(b, jobs[..k], Start), Visit(b, jobs[..k + 1], Start);
      var olds, news := jobs[k].outputs(b.previousBuildDir), jobs[k].outputs(None);
      after.changed == before.changed &&
      |after.links| == |before.links| + (if |olds| < |news| then |olds| else |news|) &&
      after.links[..|before.links|] == before.links &&
      forall i :: 0 <= i < |after.links| - |before.links| ==>
        after.links[|before.links| + i] == (olds[i], news[i])
  {
    DecisionAt(b, jobs, k);
  }

  /**
   * Starting from an empty changed set, jobs that are unforced, whose
   * configuration matches the snapshot and whose outputs the previous build
   * holds are all skipped, in order, and the changed set stays empty.
   */
  lemma {:induction false} AllSkippedFrom(b: Baseline, jobs: seq<Job>, p: Progress)
    requires !p.aborted && p.changed == {}
    requires forall j :: 0 <= j < |jobs| ==>
      !IsForced(jobs[j]) && !ConfigChanged(jobs[j], b) && OutputsComputed(jobs[j], b)
    ensures var t := Visit(b, jobs, p);
      !t.aborted && t.changed == {} && |t.decisions| == |p.decisions| + |jobs| &&
      forall j :: |p.decisions| <= j < |t.decisions| ==> t.decisions[j] == Skipped
  {
    if jobs != [] {
      assert !InputsChanged(jobs[0], {});
      var q := Step(b, jobs[0], p);
      assert q.decisions == p.decisions + [Skipped];
      AllSkippedFrom(b, jobs[1..], q);
      forall j | 0 <= j < |jobs| - 1 ensures !IsForced(jobs[1..][j]) {
        assert jobs[1..][j] == jobs[j + 1];
      }
      VisitShape(b, jobs[1..], q);
    }
  }

  /**
   * An unforced build whose configurations all match the snapshot and whose
   * outputs all exist in the previous build skips every job and leaves the
   * changed set empty.
   */
  lemma NothingToDo(b: Baseline, jobs: seq<Job>)
    requires forall j :: 0 <= j < |jobs| ==>
      !IsForced(jobs[j]) && PreviousConfigOf(b, jobs[j].name) == jobs[j].config && OutputsComputed(jobs[j], b)
    ensures var t := Visit(b, jobs, Start);
      !t.aborted && t.changed == {} && |t.decisions| == |jobs| &&
      forall j :: 0 <= j < |jobs| ==> t.decisions[j] == Skipped
  {
    AllSkippedFrom(b, jobs, Start);
  }

  /** With no previous build directory every job that is reached runs, and nothing is linked. */
  lemma {:induction false} NoPreviousBuildRunsAll(b: Baseline, jobs: seq<Job>, p: Progress)
    requires !Paths.Truthy(b.previousBuildDir)
    ensures var t := Visit(b, jobs, p);
      t.links == p.links &&
      forall j :: |p.decisions| <= j < |t.decisions| ==> t.decisions[j] == Ran
  {
    if jobs != [] && !p.aborted {
      var q := Step(b, jobs[0], p);
      NoPreviousBuildRuns(jobs[0], p.changed, b);
      NoPreviousBuildRunsAll(b, jobs[1..], q);
      VisitShape(b, jobs[1..], q);
      assert q.decisions[|p.decisions|] == Ran;
    }
  }

  // ---------------------------------------------------------------------
  // the manager object

  class BuildManager {
    const build: seq<Job>
    const baseline: Baseline
    const newConfig: map<string, Config>
    const newBuildDir: string
    /** `_changed_files` */
    var changedFiles: set<string>
    /** which of `job.run()` / `job.skip()` was called, job by job */
    var decisions: seq<Decision>
    /** the links `make_links` was asked to create */
    var links: seq<Link>
    /** the configuration `save_config` wrote, once it has */
    var savedConfig: Option<map<string, Config>>

    /**
     * `__init__`: the previous snapshot and directory come from the build
     * explorer, the new configuration from the build, the new directory from
     * `make_new_build_dir`; they are passed in.
     */
    constructor(build: seq<Job>, previousConfig: map<string, Config>, previousBuildDir: Option<string>,
                previousFiles: set<string>, newConfig: map<string, Config>, newBuildDir: string)
      ensures this.build == build && this.newConfig == newConfig && this.newBuildDir == newBuildDir
      ensures baseline == Baseline(previousConfig, previousBuildDir, previousFiles)
      ensures changedFiles == {} && decisions == [] && links == [] && savedConfig == None
    {
      this.build := build;
      this.baseline := Baseline(previousConfig, previousBuildDir, previousFiles);
      this.newConfig := newConfig;
      this.newBuildDir := newBuildDir;
      changedFiles := {};
      decisions := [];
      links := [];
      savedConfig := None;
    }

    function Current(aborted: bool): Progress
      reads this
    {
      Progress(changedFiles, decisions, links, aborted)
    }

    /** `_run_job`: mark the outputs as changed, then call the action. */
    method RunJob(job: Job) returns (result: ActionResult)
      modifies this`changedFiles, this`decisions
      ensures changedFiles == old(changedFiles) + Members(job.outputs(None))
      ensures decisions == old(decisions) + [Ran]
      ensures result == Outcome(job)
    {
      changedFiles := changedFiles + Members(job.outputs(None));
      decisions := decisions + [Ran];
      result := job.action(job.inputs, job.outputs(None), job.config);
    }

    /** `_skip_job`: record the skip and link the previous outputs into the new build. */
    method SkipJob(job: Job)
      modifies this`decisions, this`links
      ensures decisions == old(decisions) + [Skipped]
      ensures links == old(links) + SkipLinks(job, baseline)
    {
      decisions := decisions + [Skipped];
      links := links + Zip(job.outputs(baseline.previousBuildDir), job.outputs(None));
    }

    /**
     * `run`: visit the jobs in order; a job that raises stops the loop, and in
     * every case the new configuration is saved before `run` returns (the
     * `finally`).  `Raised` is the exception `run` re-raises.
     */
    method Run() returns (result: ActionResult)
      modifies this`changedFiles, this`decisions, this`links, this`savedConfig
      ensures Current(result == Raised) ==
        Visit(baseline, build, Progress(old(changedFiles), old(decisions), old(links), false))
      ensures savedConfig == Some(newConfig)
    {
      ghost var start := Current(false);
      result := Completed;
      var i := 0;
      while i < |build| && result == Completed
        invariant 0 <= i <= |build|
        invariant Visit(baseline, build, start) == Visit(baseline, build[i..], Current(result == Raised))
      {
        var job := build[i];
        ghost var before := Current(false);
        if ShouldRun(job, changedFiles, baseline) {
          result := RunJob(job);
        } else {
          SkipJob(job);
        }
        assert Current(result == Raised) == Step(baseline, job, before);
        assert build[i..][1..] == build[i + 1..];
        i := i + 1;
      }
      savedConfig := Some(newConfig);
    }
  }
}
