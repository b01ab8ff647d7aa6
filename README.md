# wikimap build orchestrator, modelled in Dafny

wikimap builds a zoomable map of Wikipedia through a pipeline of 25 jobs. The
jobs download the SQL dumps, load them into tables, compute pagerank, word
embeddings and a t-SNE layout, and produce the map's indices and plots. The
builder runs this pipeline incrementally:

- Every build gets a new numbered directory `builds_dir/<prefix><n>`.
- A job runs again only when it is forced, or when one of its inputs changed
  earlier in the same build, or when its configuration differs from the
  baseline build's snapshot, or when the baseline build lacks one of its outputs.
- Any other job is skipped, and its outputs are linked from the baseline build.

The project models five parts of that system, one Dafny module each:

| module | file | models |
|---|---|---|
| `Manager` | `manager.dfy` | the run-or-skip engine `BuildManager` (wikimap/Builder/Manager.py) |
| `Creator` | `creator.dfy` | build-index allocation, the build directory and the baseline choice (wikimap/Builder/Creator.py) |
| `Paths` | `paths.dfy` | `resolve`, `set_base` and the 26 artifact functions (wikimap/Paths.py) |
| `Pipeline` | `pipeline.dfy` | the `Build` job list, its indexing and `setBasePath` (wikimap/Build.py) |
| `Quadtree` | `bounds.dfy` | the `Bounds` rectangle, `contain` and its four quadrants (src/quadtree/bounds.cpp) |

`wrappers.dfy` holds the `Option` type, which stands for Python's `None`-or-value.

How the model is shaped:

- **Manager.** It is a class holding the mutable state of `BuildManager`,
  the changed-files set, together with fields that record the effects the
  loop has outside the manager: which of `job.run()` and `job.skip()` was
  called for each job, the links `make_links` was asked to make, and the
  configuration `save_config` wrote. Its `Run` loop is proved equal to the function `Visit`,
  which applies the run-or-skip rule job by job. The loop properties are
  lemmas about `Visit`: monotone growth, forward invalidation, what a skip
  does, "nothing to do" and "no previous build".
- **Filesystem.** It is abstract. The files of the previous build are a set,
  the directories on disk are a set, and links are a recorded sequence of pairs.
- **Job actions.** These are opaque functions that either complete or raise.
  A raised exception stops the loop, and the configuration is still saved.
- **Pipeline.** The constructor appends the 25 jobs through `Append`, one
  call per `jobs.append` of Build.py. The appends are grouped in five helper
  methods: Build.py's four paragraphs of appends, with the last one split at
  line 73. It is proved that:
  - the list holds every stage's job at that stage's place;
  - no key is written by two jobs;
  - every input is written by an earlier job.
- **Numbers.** Build indices are unbounded naturals, and quadtree coordinates
  are exact reals.

Where the code and its surrounding files disagree, the model follows the code
of each file as written:

- Creator.py line 25 calls `run(prev_config=…, prev_build_dir=…, new_build_dir=…)`,
  but `BuildManager.run` in Manager.py takes no arguments. `BuildManager.__init__`
  reads the previous configuration and directories from the build explorer.
  The model passes those values to the `BuildManager` constructor.
- Build.py looks paths up as `Path['pageSql']` in a table imported as
  `from Paths import paths as Path`. Paths.py defines no such table, only one
  function per artifact. The model keeps Build.py's keys (`Pipeline.PathKey`)
  and Paths.py's artifacts (`Paths.Artifact`) apart, and does not relate them.

## Model

| member | source | states |
|---|---|---|
| Manager.IsForced | wikimap/Builder/Manager.py:59-60 | definition: the job carries the Forced property |
| Manager.InputsChanged | wikimap/Builder/Manager.py:65-66 | definition: some input of the job is in the changed set |
| Manager.PreviousConfigOf | wikimap/Builder/Manager.py:69 | definition: the snapshot entry for the job's name, or `{}` when the name is absent |
| Manager.ConfigChanged | wikimap/Builder/Manager.py:68-71 | definition: the snapshot entry (default `{}`) differs from the job's config |
| Manager.OutputsComputed | wikimap/Builder/Manager.py:62-63 | definition: the previous build dir is truthy and every previous-build output exists |
| Manager.ShouldRun | wikimap/Builder/Manager.py:53-57 | definition: forced, or inputs changed, or config changed, or outputs not computed |
| Manager.Outcome | wikimap/Builder/Manager.py:46 | definition: what `job.run()` returns or raises, the action applied to the job's inputs, outputs and config |
| Manager.SkipLinks | wikimap/Builder/Manager.py:51 | definition: the zip of the previous-build outputs with the new-build outputs |
| Manager.Step | wikimap/Builder/Manager.py:25-29 | definition: one turn of the loop, `_run_job` when the rule says run (stopping if the action raised), else `_skip_job` |
| Manager.Visit | wikimap/Builder/Manager.py:24-37 | definition: the loop over the remaining jobs, stopping after a job that raised; the specification of `run` |
| Manager.EmptyConfigUnchanged | wikimap/Builder/Manager.py:68-71 | a job with an empty config and no snapshot entry is not config-changed |
| Manager.NoPreviousBuildRuns | wikimap/Builder/Manager.py:62-63 | with no previous build dir (None or empty) the outputs are not computed and the job runs |
| Manager.Zip | wikimap/Builder/Manager.py:51 | `zip` pairs the elements at equal positions, as many pairs as the shorter list has |
| Manager.VisitAppend | wikimap/Builder/Manager.py:25-29 | visiting a concatenation of job lists visits the first part and then the second |
| Manager.VisitShape | wikimap/Builder/Manager.py:24-37 | decisions and links only grow, one decision per job reached; the changed set only grows; all jobs are reached unless a job ran and raised, and the loop stops right after that job |
| Manager.PrefixSplit | wikimap/Builder/Manager.py:25 | the jobs are visited as the first n and then the rest |
| Manager.PrefixExtend | wikimap/Builder/Manager.py:25-29 | one more job is one more step, unless the loop has already stopped |
| Manager.ReachedAt | wikimap/Builder/Manager.py:25-37 | a job that gets a decision comes after k jobs that did not stop the loop, each with one decision |
| Manager.DecisionsOfPrefix | wikimap/Builder/Manager.py:25-29 | the decisions for a prefix of the jobs are a prefix of all the decisions |
| Manager.DecisionAt | wikimap/Builder/Manager.py:25-29 | the decision for job k is Ran iff the run-or-skip rule holds for the changed set left by the jobs before it (forced, an input changed, config changed or outputs missing), both directions |
| Manager.ForcedReconfiguredOrMissingRuns | wikimap/Builder/Manager.py:53-71 | a reached job that is forced, has a config differing from its snapshot entry, or lacks a previous-build output (or has no previous build) runs, whatever changed before it |
| Manager.RaisedAborts | wikimap/Builder/Manager.py:24-37 | a job that runs and raises ends the loop: it is the last job with a decision and the loop reports that it stopped |
| Manager.NoRaiseCompletes | wikimap/Builder/Manager.py:24-29 | when no job raises, every job gets a decision and the loop does not stop |
| Manager.ChangedGrows | wikimap/Builder/Manager.py:43-46 | the changed set after m jobs is contained in the one after n >= m jobs |
| Manager.RanOutputsChanged | wikimap/Builder/Manager.py:43-46 | once a job has run, all of its new-build outputs stay in the changed set for the rest of the build |
| Manager.ForwardInvalidation | wikimap/Builder/Manager.py:25-66 | if job k runs and one of its outputs is an input of a later job j that the loop reaches, then j runs |
| Manager.SkippedJobLinks | wikimap/Builder/Manager.py:48-51 | a skip leaves the changed set unchanged and adds, in order, links pairing each previous-build output with the new-build output at the same position |
| Manager.AllSkippedFrom | wikimap/Builder/Manager.py:25-71 | from an empty changed set, jobs that are unforced, config-unchanged and already computed are skipped one by one and the set stays empty |
| Manager.NothingToDo | wikimap/Builder/Manager.py:25-71 | no job forced, every config equal to its snapshot and every output present: every job is skipped and the changed set stays empty |
| Manager.NoPreviousBuildRunsAll | wikimap/Builder/Manager.py:62-63 | without a previous build every job reached runs and no link is made |
| Manager.BuildManager.constructor | wikimap/Builder/Manager.py:10-17 | starts from an empty changed set, no decisions, no links and nothing saved |
| Manager.BuildManager.RunJob | wikimap/Builder/Manager.py:43-46 | adds all of the job's new-build outputs to the changed set, then returns what the action returns |
| Manager.BuildManager.SkipJob | wikimap/Builder/Manager.py:48-51 | records the skip and appends the zip of previous-build and new-build outputs to the links; the changed set is untouched |
| Manager.BuildManager.Run | wikimap/Builder/Manager.py:19-41 | the new state is exactly `Visit` of the jobs from the old state and the result is Raised iff that loop stopped, which by VisitShape, RaisedAborts and NoRaiseCompletes is iff a job ran and raised; the new config is saved on every exit path |
| Creator.Decimal | wikimap/Builder/Creator.py:44 | `str(n)` is a non-empty string of digits with no leading zero |
| Creator.DecimalRoundTrip | wikimap/Builder/Creator.py:44 | reading back the decimal string of n gives n |
| Creator.DecimalInjective | wikimap/Builder/Creator.py:44 | distinct indices have distinct decimal strings |
| Creator.NewBuildIndexFresh | wikimap/Builder/Creator.py:39-41 | the new index is 0 with no last build, else last + 1; it exceeds every existing version and so is unused |
| Creator.NewBuildIndexContiguous | wikimap/Builder/Creator.py:39-41 | when the versions are exactly 0..n-1 the new index is n |
| Creator.NewBuildIndexExamples | wikimap/Builder/Creator.py:39-41 | no builds give 0; versions {0, 1, 3} give 4 |
| Creator.NewBuildIndex | wikimap/Builder/Creator.py:39-41 | definition: 0 when there is no last build, else last + 1 (its properties are the NewBuildIndex lemmas) |
| Creator.BaseIndex | wikimap/Builder/Creator.py:33-37 | `base or last`: a truthy (non-zero) requested index is chosen; otherwise the result is the last index, since it is one of the two and differs from the last only when it is a truthy request |
| Creator.ZeroMeansLast | wikimap/Builder/Creator.py:34 | requesting index 0 is the same as requesting none: both select the last build |
| Creator.BaseIndexExists | wikimap/Builder/Creator.py:33-41 | when a requested index names an existing build, the baseline is an existing build, and there is one exactly when some build exists |
| Creator.BuildDir | wikimap/Builder/Creator.py:44 | definition: `join(builds_dir, prefix + str(index))` |
| Creator.BuildDirInjective | wikimap/Builder/Creator.py:44 | distinct indices give distinct build directories |
| Creator.BuildCreator.constructor | wikimap/Builder/Creator.py:9-12 | keeps the builds directory, prefix and requested baseline index |
| Creator.BuildCreator.BaseBuildDir | wikimap/Builder/Creator.py:33-34 | definition: the explorer's directory for `base or last` |
| Creator.BuildCreator.BaseConfig | wikimap/Builder/Creator.py:36-37 | definition: the explorer's config for `base or last` |
| Creator.BuildCreator.NewIndex | wikimap/Builder/Creator.py:39-41 | definition: the new build index for the explorer's last index |
| Creator.BuildCreator.BaselineFromOneBuild | wikimap/Builder/Creator.py:33-37 | the baseline directory and baseline config come from the same index: the requested one if truthy, else the last one |
| Creator.BuildCreator.MakeDirs | wikimap/Builder/Creator.py:45-48 | `os.makedirs` adds exactly the new directory; it requires the directory to be absent |
| Creator.BuildCreator.MakeNewBuildDir | wikimap/Builder/Creator.py:43-49 | returns `join(builds_dir, prefix + str(new index))`; afterwards both directories exist and nothing else was created, so a repeated call with the same last index changes nothing |
| Paths.Or | wikimap/Paths.py:22 | `a or b` is one of its operands, and it is truthy iff either operand is |
| Paths.Join | wikimap/Paths.py:18 | an absolute path replaces the base; otherwise the result starts with the base and ends with the path |
| Paths.JoinInjective | wikimap/Paths.py:18 | for a fixed base, two relative paths that join to the same string are equal |
| Paths.SetBase | wikimap/Paths.py:16-19 | the result always ends with the path, and it is the path unchanged iff the base is falsy or the path is absolute |
| Paths.Flat | wikimap/Paths.py:9-12 | definition: a list value is spliced in, a scalar is appended as one path |
| Paths.Evaluate | wikimap/Paths.py:8 | definition: a callable entry is called with `base`, any other entry used as is |
| Paths.Resolved | wikimap/Paths.py:5-14 | definition: the specification of `resolve`, the expansions of the entries concatenated in order |
| Paths.Resolve | wikimap/Paths.py:5-14 | the loop's result is the in-order concatenation of the entries' expansions (callables called with `base`), and its length is the sum of the entries' widths |
| Paths.ResolvedAppend | wikimap/Paths.py:6-14 | resolving a concatenation of entry lists gives the two results concatenated, in order |
| Paths.ResolvedSmall | wikimap/Paths.py:5-14 | `resolve([])` is `[]`; one entry resolves to its own expansion |
| Paths.ResolvedLength | wikimap/Paths.py:9-12 | the result's length is the sum of the per-entry widths: list length, or 1 for a scalar |
| Paths.ResolvedEntryAt | wikimap/Paths.py:6-14 | entry i's expansion appears right after the expansions of entries 0..i-1 |
| Paths.FileName | wikimap/Paths.py:21-123 | definition: the file name each artifact function passes to `set_base` |
| Paths.FileNameRoundTrip | wikimap/Paths.py:21-123 | each artifact's file name is relative and names only that artifact, so the file names are pairwise distinct |
| Paths.ArtifactPath | wikimap/Paths.py:21-123 | an artifact joins its file name onto the explicit base when truthy, else onto `global_base` when truthy, else returns the bare file name |
| Paths.ArtifactPathsDistinct | wikimap/Paths.py:21-123 | distinct artifacts resolve to distinct paths under the same bases |
| Paths.ArtifactEntry | wikimap/Paths.py:21-123 | an artifact function used as a path entry expands to its one path under the resolving base |
| Pipeline.JobOf | wikimap/Build.py:49-76 | definition: the job Build.py appends for a stage, from the stage's inputs, outputs, artifacts and parameters |
| Pipeline.Inputs | wikimap/Build.py:49-76 | definition: each job's `inputs=` list |
| Pipeline.Outputs | wikimap/Build.py:49-76 | definition: each job's `outputs=` list |
| Pipeline.Artifacts | wikimap/Build.py:63-64 | definition: each job's `artifacts=` list |
| Pipeline.Parameters | wikimap/Build.py:64-76 | definition: each job's keyword parameters |
| Pipeline.StageName | wikimap/Build.py:49-76 | definition: each job's name, the first argument of its `Job(...)` |
| Pipeline.StageNameInjective | wikimap/Builder/Manager.py:69 | no two jobs share a name, so each job has its own entry in the configuration snapshot keyed by `job.name` |
| Pipeline.StageAction | wikimap/Build.py:49-76 | definition: `Utils.download` of the stage's dump URL for the five downloads, otherwise the stage's `Interface` entry point |
| Pipeline.Position | wikimap/Build.py:48-76 | every stage has a place in the 25-job list |
| Pipeline.PositionInjective | wikimap/Build.py:48-76 | no two stages share a place |
| Pipeline.InputProducedEarlier | wikimap/Build.py:49-76 | every key a job reads has a producing stage placed before it |
| Pipeline.OutputProducer | wikimap/Build.py:49-76 | every key a job writes has that job as its producer |
| Pipeline.ArtifactUnproduced | wikimap/Build.py:63-64 | the vocabulary and embeddings artifacts are no job's output |
| Pipeline.ProducerWrites | wikimap/Build.py:49-76 | a key's producer lists it among its outputs |
| Pipeline.DownloadsReadNothing | wikimap/Build.py:49-76 | the jobs with no inputs are exactly the five downloads, and each download writes one dump and keeps no artifact |
| Pipeline.DownloadActions | wikimap/Build.py:8-53 | exactly the five downloads have `Utils.download` as their action |
| Pipeline.ParameterValues | wikimap/Build.py:64-76 | iterations=10, pointCount=100000, bucketSize=100, maxDegree=30 and degreeThreshold=30; no other job takes a parameter |
| Pipeline.AppendStage | wikimap/Build.py:49-76 | appending the job of the stage whose place is next keeps the list in order |
| Pipeline.InOrderAt | wikimap/Build.py:48-76 | in a list in order, the job at index i belongs to the stage placed at i |
| Pipeline.InOrderUniqueOutputs | wikimap/Build.py:49-76 | in a list in order, no output is declared by two jobs |
| Pipeline.InputAt | wikimap/Build.py:49-76 | in a list in order, what job i reads is written by the job at its producer's place, which is before i |
| Pipeline.InOrderInputsEarlier | wikimap/Build.py:49-76 | in a list in order, every input of job i is an output of some job j < i |
| Pipeline.InOrderDownloadsFirst | wikimap/Build.py:49-53 | in a list in order, the jobs without inputs are exactly those at indices 0-4 |
| Pipeline.InOrderHolds | wikimap/Build.py:48-76 | a list in order holds each stage's job at that stage's place |
| Pipeline.InOrderHoldsAll | wikimap/Build.py:48-78 | the full list holds every stage's job |
| Pipeline.InOrderUnique | wikimap/Build.py:48-78 | two lists in order of the same length are equal, so the order fixes the whole list |
| Pipeline.Append | wikimap/Build.py:49 | `jobs.append(Job(…))`: the list grows by that job at the end and stays in order |
| Pipeline.AppendDownloads | wikimap/Build.py:49-53 | the five download appends take the empty list to a 5-job list in order |
| Pipeline.AppendTables | wikimap/Build.py:55-60 | the table appends take the list from 5 to 11 jobs, in order |
| Pipeline.AppendAnalyses | wikimap/Build.py:62-67 | the analysis appends take the list from 11 to 17 jobs, in order |
| Pipeline.AppendMapTables | wikimap/Build.py:69-72 | the map-table appends take the list from 17 to 21 jobs, in order |
| Pipeline.AppendIndices | wikimap/Build.py:73-76 | the index and plot appends take the list from 21 to 25 jobs, in order |
| Pipeline.PathTable.constructor | wikimap/Build.py:4 | the shared path table starts with no base |
| Pipeline.Build.constructor | wikimap/Build.py:48-78 | exactly 25 jobs in the listed order, each stage's job at its place; outputs are unique; every input is an output of an earlier job |
| Pipeline.Build.GetItem | wikimap/Build.py:83-84 | Python indexing: a job is returned iff `-len <= n < len`, else `IndexError` (None), and what is returned is one of the build's jobs |
| Pipeline.Build.GetItemFromEnd | wikimap/Build.py:83-84 | for `0 <= n < len`, index `n - len` gives the same job as `n` |
| Pipeline.Build.GetItemStage | wikimap/Build.py:48-84 | in the constructed build, `build[Position(s)]` and `build[Position(s) - 25]` are stage s's job |
| Pipeline.Build.Iterate | wikimap/Build.py:80-81 | iteration yields the jobs in the order `__getitem__` numbers them |
| Pipeline.Build.SetBasePath | wikimap/Build.py:86-87 | the shared table's base becomes the path, and the jobs are unchanged |
| Quadtree.MakeBounds | src/quadtree/bounds.cpp:9-13 | construction requires topLeft <= bottomRight in both coordinates and keeps both corners |
| Quadtree.HalfOpenEdges | src/quadtree/bounds.cpp:15-18 | for a rectangle with a point (ex, ey) inside it: the points of the left and top edges at ex and ey are inside; those of the right and bottom edges are outside; of the corners only the top-left one is inside |
| Quadtree.Contain | src/quadtree/bounds.cpp:15-18 | definition: left <= x < right and top <= y < bottom (its properties are HalfOpenEdges, DegenerateContainsNothing and QuadrantsPartition) |
| Quadtree.DegenerateContainsNothing | src/quadtree/bounds.cpp:15-18 | bounds whose corners coincide contain no point |
| Quadtree.TopLeftQuadrant | src/quadtree/bounds.cpp:20-26 | well formed, inside the parent, from the parent's topLeft to the midpoint |
| Quadtree.TopRightQuadrant | src/quadtree/bounds.cpp:28-34 | well formed, inside the parent, from (mid.x, top) to (right, mid.y) |
| Quadtree.BottomRightQuadrant | src/quadtree/bounds.cpp:36-42 | well formed, inside the parent, from the midpoint to the parent's bottomRight |
| Quadtree.BottomLeftQuadrant | src/quadtree/bounds.cpp:44-50 | well formed, inside the parent, from (left, mid.y) to (mid.x, bottom) |
| Quadtree.QuadrantsPartition | src/quadtree/bounds.cpp:15-50 | a point inside the parent is in exactly one quadrant, and a point outside is in none |

## Left out

- Logging and presentation are left out: the start banners and config dumps
  (Manager.py:20-23), the exception logging (Manager.py:32-36),
  `_print_summary` and `_print_logs_and_warnings` (Manager.py:39-40), and
  `_log_job_action`. They only write output; the model assumes that they
  never raise.
- Exception kinds are collapsed. `KeyboardInterrupt`, `Exception` and a bare
  `except` all re-raise, so an action's outcome is `Completed` or `Raised`.
- The model does not say what `job.run()` and `job.skip()` do to a job's
  state beyond calling the action. Job.py is not part of this model.
- `make_links`, `os.path.exists`, `os.makedirs` and the config file format are
  abstract. The model uses a set of previous-build files, a set of directories
  and a recorded sequence of link pairs.
- Manager.BuildManager.Run: `_new_build_dir` is only used for logging in
  `run`, so the model keeps it as a field and nothing depends on it.
- Manager.BuildManager.Run: only a job's action can raise. In the source,
  `job.skip()` and `make_links` in `_skip_job` (Manager.py:50-51) and the
  `os.path.exists` and `job.outputs()` calls behind `_should_run` could raise
  too, ending the loop through the same `finally`. `_print_summary` and
  `_print_logs_and_warnings` (Manager.py:39-40) run before `save_config`;
  if they raised, the configuration would not be saved. The model assumes
  neither skipping, querying nor printing ever raises, so `savedConfig` is
  set on every exit path.
- `BuildManager.plan`, `configure` and `print_jobs`/`print_config`, which
  Creator.py calls, are not defined in Manager.py. The same holds for the
  parser and `BuildConfig` glue of `BuildCreator.__init__` (Creator.py:14-22)
  and for `BuildCreator.run` (Creator.py:24-25). They are not modelled.
- The build explorer (Explorer.py) is not part of this model. The last build
  index, `get_build_dir` and `get_config` are inputs to the `BuildCreator`.
  `Creator.IsLatest` states that the last index is meant to be the largest
  existing version.
- Creator.BuildCreator.MakeNewBuildDir: `os.makedirs` also creates missing
  intermediate directories. The model adds only the two directories named in
  the code.
- Creator.BuildCreator.MakeNewBuildDir: the last build index is a fixed
  field. In the source every call asks the explorer again
  (Creator.py:40), and the explorer scans the builds directory, so a second
  call would see the directory the first one made and use the next index.
  "A repeated call changes nothing" holds only while the last index stays
  the same.
- Configurations are modelled as maps to integers. Build.py only ever passes
  integer parameters.
- The job actions in Build.py (`Utils.download(url)` closures and
  `Interface.*` entry points) are recorded by their URL or entry name, not run.
- Pipeline.Build.GetItem: only integer indices are modelled. `self.jobs[n]`
  also accepts a slice and then returns a list; nothing in the model uses that.
- Pipeline.PathTable.constructor: the `Path` table that Build.py imports
  (Build.py:4) and whose `base` `setBasePath` sets is not defined in the
  shown Paths.py. Its initial base is assumed to be `None`, and its base is
  not connected to the `global_base` argument of `Paths.ArtifactPath`.
- Pipeline.Build.constructor: the path table lookups `Path['…']` of
  Build.py:14-46 are modelled as distinct keys. The values they resolve to,
  and how they would match Paths.py's artifacts, are not modelled.
- Quadtree: coordinates are exact reals, so the rounding of `double`
  midpoints is not modelled. With rounding, a midpoint could coincide with
  an edge of a very thin rectangle.
- Arrays.py, the vector operations and word2vec are outside this model.
  They are floating-point numerics, file I/O and parallel shuffling, with no
  run-or-skip logic.
