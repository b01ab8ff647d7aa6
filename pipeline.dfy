/**
 * The pipeline of wikimap/Build.py: twenty-five jobs appended in dependency
 * order, each with a name, an action, declared inputs and outputs (keys of
 * the shared path table `Path`), auxiliary artifacts and numeric parameters.
 */
module Pipeline {
  import opened Wrappers

  /** The keys `Path['…']` that Build.py looks up. */
  datatype PathKey =
    | PageSql | LinksSql | CategorySql | CategoryLinksSql | PagePropertiesSql
    | Page | Links | Category | CategoryLinks | PageProperties
    | NormalizedLinksArray | AggregatedInlinks | AggregatedOutlinks
    | Pagerank | Tsne | HighDimensionalNeighbors | LowDimensionalNeighbors
    | WikimapPoints | WikimapCategories | Metadata | ZoomIndex | TermIndex | Degrees
    | Vocabulary | Embeddings | VocabularyArtifacts | EmbeddingsArtifacts
    | DegreePlot | IsolatedPointsPlot

  /** The jobs of Build.py, one per `jobs.append`, in the order of the appends. */
  datatype Stage =
    | DownloadPageTable | DownloadLinksTable | DownloadCategoryTable
    | DownloadCategoryLinksTable | DownloadPagePropertiesTable | CreatePageTable
    | CreateLinksTable | CreateCategoryTable | CreateCategoryLinksTable
    | CreatePagePropertiesTable | CreateNormalizedLinksArray | ComputePagerank
    | ComputeWordVocabulary | ComputeWordEmbeddings | ComputeTsne
    | ComputeHighDimensionalNeighbors | ComputeLowDimensionalNeighbors | CreateAggregatedLinksTables
    | CreateWikimapDatapointsTable | CreateWikimapCategoriesTable | CreateDegreesTable
    | CreateZoomIndex | CreateTermIndex | CreateDegreePlot
    | CreateIsolatedPointsPlot

  /** A job's action: `Utils.download(url)`, or an entry point `Interface.<entry>` of the stage interface. */
  datatype Action = Download(url: string) | Interface(entry: string)

  /**
   * `Job(name, action, inputs=…, outputs=…, artifacts=…, **parameters)`.
   * The name and the action are the stage's own, see `StageName` and `StageAction`.
   */
  datatype JobSpec = JobSpec(
    stage: Stage,
    inputs: seq<PathKey>,
    outputs: seq<PathKey>,
    artifacts: seq<PathKey>,
    parameters: map<string, int>)


  /** The job Build.py constructs for each stage: what it reads, writes, keeps aside and is configured with. */
  function JobOf(s: Stage): JobSpec
  {
    JobSpec(s, Inputs(s), Outputs(s), Artifacts(s), Parameters(s))
  }

  /** The `inputs=` list of each job. */
  function Inputs(s: Stage): seq<PathKey>
  {
    match s
    case DownloadPageTable => []
    case DownloadLinksTable => []
    case DownloadCategoryTable => []
    case DownloadCategoryLinksTable => []
    case DownloadPagePropertiesTable => []
    case CreatePageTable => [PageSql]
    case CreateLinksTable => [LinksSql]
    case CreateCategoryTable => [CategorySql]
    case CreateCategoryLinksTable => [CategoryLinksSql]
    case CreatePagePropertiesTable => [PagePropertiesSql]
    case CreateNormalizedLinksArray => [Page, Links]
    case ComputePagerank => [NormalizedLinksArray]
    case ComputeWordVocabulary => [NormalizedLinksArray]
    case ComputeWordEmbeddings => [NormalizedLinksArray, Vocabulary]
    case ComputeTsne => [Embeddings, Pagerank]
    case ComputeHighDimensionalNeighbors => [Embeddings, Tsne, Page]
    case ComputeLowDimensionalNeighbors => [Tsne, Page]
    case CreateAggregatedLinksTables => [NormalizedLinksArray, Tsne]
    case CreateWikimapDatapointsTable => [Tsne, Page, HighDimensionalNeighbors, LowDimensionalNeighbors, Pagerank]
    case CreateWikimapCategoriesTable => [CategoryLinks, Category, Page, Tsne, PageProperties]
    case CreateDegreesTable => [Tsne, NormalizedLinksArray]
    case CreateZoomIndex => [WikimapPoints, Pagerank]
    case CreateTermIndex => [WikimapPoints, WikimapCategories]
    case CreateDegreePlot => [Degrees]
    case CreateIsolatedPointsPlot => [Degrees, Pagerank]
  }

  /** The `outputs=` list of each job. */
  function Outputs(s: Stage): seq<PathKey>
  {
    match s
    case DownloadPageTable => [PageSql]
    case DownloadLinksTable => [LinksSql]
    case DownloadCategoryTable => [CategorySql]
    case DownloadCategoryLinksTable => [CategoryLinksSql]
    case DownloadPagePropertiesTable => [PagePropertiesSql]
    case CreatePageTable => [Page]
    case CreateLinksTable => [Links]
    case CreateCategoryTable => [Category]
    case CreateCategoryLinksTable => [CategoryLinks]
    case CreatePagePropertiesTable => [PageProperties]
    case CreateNormalizedLinksArray => [NormalizedLinksArray]
    case ComputePagerank => [Pagerank]
    case ComputeWordVocabulary => [Vocabulary]
    case ComputeWordEmbeddings => [Embeddings]
    case ComputeTsne => [Tsne]
    case ComputeHighDimensionalNeighbors => [HighDimensionalNeighbors]
    case ComputeLowDimensionalNeighbors => [LowDimensionalNeighbors]
    case CreateAggregatedLinksTables => [AggregatedInlinks, AggregatedOutlinks]
    case CreateWikimapDatapointsTable => [WikimapPoints]
    case CreateWikimapCategoriesTable => [WikimapCategories]
    case CreateDegreesTable => [Degrees]
    case CreateZoomIndex => [ZoomIndex, Metadata]
    case CreateTermIndex => [TermIndex]
    case CreateDegreePlot => [DegreePlot]
    case CreateIsolatedPointsPlot => [IsolatedPointsPlot]
  }

  /** The `artifacts=` list of each job. */
  function Artifacts(s: Stage): seq<PathKey>
  {
    match s
    case DownloadPageTable => []
    case DownloadLinksTable => []
    case DownloadCategoryTable => []
    case DownloadCategoryLinksTable => []
    case DownloadPagePropertiesTable => []
    case CreatePageTable => []
    case CreateLinksTable => []
    case CreateCategoryTable => []
    case CreateCategoryLinksTable => []
    case CreatePagePropertiesTable => []
    case CreateNormalizedLinksArray => []
    case ComputePagerank => []
    case ComputeWordVocabulary => [VocabularyArtifacts]
    case ComputeWordEmbeddings => [EmbeddingsArtifacts]
    case ComputeTsne => []
    case ComputeHighDimensionalNeighbors => []
    case ComputeLowDimensionalNeighbors => []
    case CreateAggregatedLinksTables => []
    case CreateWikimapDatapointsTable => []
    case CreateWikimapCategoriesTable => []
    case CreateDegreesTable => []
    case CreateZoomIndex => []
    case CreateTermIndex => []
    case CreateDegreePlot => []
    case CreateIsolatedPointsPlot => []
  }

  /** The keyword parameters of each job. */
  function Parameters(s: Stage): map<string, int>
  {
    match s
    case DownloadPageTable => map[]
    case DownloadLinksTable => map[]
    case DownloadCategoryTable => map[]
    case DownloadCategoryLinksTable => map[]
    case DownloadPagePropertiesTable => map[]
    case CreatePageTable => map[]
    case CreateLinksTable => map[]
    case CreateCategoryTable => map[]
    case CreateCategoryLinksTable => map[]
    case CreatePagePropertiesTable => map[]
    case CreateNormalizedLinksArray => map[]
    case ComputePagerank => map[]
    case ComputeWordVocabulary => map[]
    case ComputeWordEmbeddings => map["iterations" := 10]
    case ComputeTsne => map["pointCount" := 100000]
    case ComputeHighDimensionalNeighbors => map[]
    case ComputeLowDimensionalNeighbors => map[]
    case CreateAggregatedLinksTables => map[]
    case CreateWikimapDatapointsTable => map[]
    case CreateWikimapCategoriesTable => map[]
    case CreateDegreesTable => map[]
    case CreateZoomIndex => map["bucketSize" := 100]
    case CreateTermIndex => map[]
    case CreateDegreePlot => map["maxDegree" := 30]
    case CreateIsolatedPointsPlot => map["degreeThreshold" := 30]
  }

  /** The name each job is given in Build.py. */
  function StageName(s: Stage): string
  {
    match s
    case DownloadPageTable => "DOWNLOAD PAGE TABLE"
    case DownloadLinksTable => "DOWNLOAD LINKS TABLE"
    case DownloadCategoryTable => "DOWNLOAD CATEGORY TABLE"
    case DownloadCategoryLinksTable => "DOWNLOAD CATEGORY LINKS TABLE"
    case DownloadPagePropertiesTable => "DOWNLOAD PAGE PROPERTIES TABLE"
    case CreatePageTable => "CREATE PAGE TABLE"
    case CreateLinksTable => "CREATE LINKS TABLE"
    case CreateCategoryTable => "CREATE CATEGORY TABLE"
    case CreateCategoryLinksTable => "CREATE CATEGORY LINKS TABLE"
    case CreatePagePropertiesTable => "CREATE PAGE PROPERTIES TABLE"
    case CreateNormalizedLinksArray => "CREATE NORMALIZED LINKS ARRAY"
    case ComputePagerank => "COMPUTE PAGERANK"
    case ComputeWordVocabulary => "COMPUTE WORD VOCABULARY"
    case ComputeWordEmbeddings => "COMPUTE WORD EMBEDDINGS"
    case ComputeTsne => "COMPUTE TSNE"
    case ComputeHighDimensionalNeighbors => "COMPUTE HIGH DIMENSIONAL NEIGHBORS"
    case ComputeLowDimensionalNeighbors => "COMPUTE LOW DIMENSIONAL NEIGHBORS"
    case CreateAggregatedLinksTables => "CREATE AGGREGATED LINKS TABLES"
    case CreateWikimapDatapointsTable => "CREATE WIKIMAP DATAPOINTS TABLE"
    case CreateWikimapCategoriesTable => "CREATE WIKIMAP CATEGORIES TABLE"
    case CreateDegreesTable => "CREATE DEGREES TABLE"
    case CreateZoomIndex => "CREATE ZOOM INDEX"
    case CreateTermIndex => "CREATE TERM INDEX"
    case CreateDegreePlot => "CREATE DEGREE PLOT"
    case CreateIsolatedPointsPlot => "CREATE ISOLATED POINTS PLOT"
  }

  /**
   * No two jobs share a name, so each job has its own entry in the
   * configuration snapshot, which is keyed by job name.
   */
  lemma StageNameInjective(s: Stage, t: Stage)
    requires StageName(s) == StageName(t)
    ensures s == t
  {
    match t
    case DownloadPageTable => assert StageName(t) == "DOWNLOAD PAGE TABLE";
    case DownloadLinksTable => assert StageName(t) == "DOWNLOAD LINKS TABLE";
    case DownloadCategoryTable => assert StageName(t) == "DOWNLOAD CATEGORY TABLE";
    case DownloadCategoryLinksTable => assert StageName(t) == "DOWNLOAD CATEGORY LINKS TABLE";
    case DownloadPagePropertiesTable => assert StageName(t) == "DOWNLOAD PAGE PROPERTIES TABLE";
    case CreatePageTable => assert StageName(t) == "CREATE PAGE TABLE";
    case CreateLinksTable => assert StageName(t) == "CREATE LINKS TABLE";
    case CreateCategoryTable => assert StageName(t) == "CREATE CATEGORY TABLE";
    case CreateCategoryLinksTable => assert StageName(t) == "CREATE CATEGORY LINKS TABLE";
    case CreatePagePropertiesTable => assert StageName(t) == "CREATE PAGE PROPERTIES TABLE";
    case CreateNormalizedLinksArray => assert StageName(t) == "CREATE NORMALIZED LINKS ARRAY";
    case ComputePagerank => assert StageName(t) == "COMPUTE PAGERANK";
    case ComputeWordVocabulary => assert StageName(t) == "COMPUTE WORD VOCABULARY";
    case ComputeWordEmbeddings => assert StageName(t) == "COMPUTE WORD EMBEDDINGS";
    case ComputeTsne => assert StageName(t) == "COMPUTE TSNE";
    case ComputeHighDimensionalNeighbors => assert StageName(t) == "COMPUTE HIGH DIMENSIONAL NEIGHBORS";
    case ComputeLowDimensionalNeighbors => assert StageName(t) == "COMPUTE LOW DIMENSIONAL NEIGHBORS";
    case CreateAggregatedLinksTables => assert StageName(t) == "CREATE AGGREGATED LINKS TABLES";
    case CreateWikimapDatapointsTable => assert StageName(t) == "CREATE WIKIMAP DATAPOINTS TABLE";
    case CreateWikimapCategoriesTable => assert StageName(t) == "CREATE WIKIMAP CATEGORIES TABLE";
    case CreateDegreesTable => assert StageName(t) == "CREATE DEGREES TABLE";
    case CreateZoomIndex => assert StageName(t) == "CREATE ZOOM INDEX";
    case CreateTermIndex => assert StageName(t) == "CREATE TERM INDEX";
    case CreateDegreePlot => assert StageName(t) == "CREATE DEGREE PLOT";
    case CreateIsolatedPointsPlot => assert StageName(t) == "CREATE ISOLATED POINTS PLOT";
  }

  /** The action each job is given in Build.py. */
  function StageAction(s: Stage): Action
  {
    match s
    case DownloadPageTable => Download("https://dumps.wikimedia.org/enwiki/latest/enwiki-latest-page.sql.gz")
    case DownloadLinksTable => Download("https://dumps.wikimedia.org/enwiki/latest/enwiki-latest-pagelinks.sql.gz")
    case DownloadCategoryTable => Download("https://dumps.wikimedia.org/enwiki/latest/enwiki-latest-category.sql.gz")
    case DownloadCategoryLinksTable => Download("https://dumps.wikimedia.org/enwiki/latest/enwiki-latest-categorylinks.sql.gz")
    case DownloadPagePropertiesTable => Download("https://dumps.wikimedia.org/enwiki/latest/enwiki-latest-page_props.sql.gz")
    case CreatePageTable => Interface("createPageTable")
    case CreateLinksTable => Interface("createLinksTable")
    case CreateCategoryTable => Interface("createCategoryTable")
    case CreateCategoryLinksTable => Interface("createCategoryLinksTable")
    case CreatePagePropertiesTable => Interface("createPagePropertiesTable")
    case CreateNormalizedLinksArray => Interface("createNormalizedLinksArray")
    case ComputePagerank => Interface("computePagerank")
    case ComputeWordVocabulary => Interface("computeVocabulary")
    case ComputeWordEmbeddings => Interface("computeEmbeddings")
    case ComputeTsne => Interface("computeTSNE")
    case ComputeHighDimensionalNeighbors => Interface("computeHighDimensionalNeighbors")
    case ComputeLowDimensionalNeighbors => Interface("computeLowDimensionalNeighbors")
    case CreateAggregatedLinksTables => Interface("createAggregatedLinksTables")
    case CreateWikimapDatapointsTable => Interface("createWikimapPointsTable")
    case CreateWikimapCategoriesTable => Interface("createWikimapCategoriesTable")
    case CreateDegreesTable => Interface("createDegreesTable")
    case CreateZoomIndex => Interface("createZoomIndex")
    case CreateTermIndex => Interface("createTermIndex")
    case CreateDegreePlot => Interface("createDegreePlot")
    case CreateIsolatedPointsPlot => Interface("createIsolatedPointsPlot")
  }

  /** The place of each stage in Build.py's list. */
  function Position(s: Stage): (n: nat)
    ensures n < 25
  {
    match s
    case DownloadPageTable => 0
    case DownloadLinksTable => 1
    case DownloadCategoryTable => 2
    case DownloadCategoryLinksTable => 3
    case DownloadPagePropertiesTable => 4
    case CreatePageTable => 5
    case CreateLinksTable => 6
    case CreateCategoryTable => 7
    case CreateCategoryLinksTable => 8
    case CreatePagePropertiesTable => 9
    case CreateNormalizedLinksArray => 10
    case ComputePagerank => 11
    case ComputeWordVocabulary => 12
    case ComputeWordEmbeddings => 13
    case ComputeTsne => 14
    case ComputeHighDimensionalNeighbors => 15
    case ComputeLowDimensionalNeighbors => 16
    case CreateAggregatedLinksTables => 17
    case CreateWikimapDatapointsTable => 18
    case CreateWikimapCategoriesTable => 19
    case CreateDegreesTable => 20
    case CreateZoomIndex => 21
    case CreateTermIndex => 22
    case CreateDegreePlot => 23
    case CreateIsolatedPointsPlot => 24
  }

  /** The stage at each place of the list. */
  function StageAt(n: nat): Option<Stage>
  {
    if n == 0 then Some(DownloadPageTable)
    else if n == 1 then Some(DownloadLinksTable)
    else if n == 2 then Some(DownloadCategoryTable)
    else if n == 3 then Some(DownloadCategoryLinksTable)
    else if n == 4 then Some(DownloadPagePropertiesTable)
    else if n == 5 then Some(CreatePageTable)
    else if n == 6 then Some(CreateLinksTable)
    else if n == 7 then Some(CreateCategoryTable)
    else if n == 8 then Some(CreateCategoryLinksTable)
    else if n == 9 then Some(CreatePagePropertiesTable)
    else if n == 10 then Some(CreateNormalizedLinksArray)
    else if n == 11 then Some(ComputePagerank)
    else if n == 12 then Some(ComputeWordVocabulary)
    else if n == 13 then Some(ComputeWordEmbeddings)
    else if n == 14 then Some(ComputeTsne)
    else if n == 15 then Some(ComputeHighDimensionalNeighbors)
    else if n == 16 then Some(ComputeLowDimensionalNeighbors)
    else if n == 17 then Some(CreateAggregatedLinksTables)
    else if n == 18 then Some(CreateWikimapDatapointsTable)
    else if n == 19 then Some(CreateWikimapCategoriesTable)
    else if n == 20 then Some(CreateDegreesTable)
    else if n == 21 then Some(CreateZoomIndex)
    else if n == 22 then Some(CreateTermIndex)
    else if n == 23 then Some(CreateDegreePlot)
    else if n == 24 then Some(CreateIsolatedPointsPlot)
    else None
  }

  /** Only one stage sits at each place. */
  lemma PositionInjective(s: Stage, t: Stage)
    requires Position(s) == Position(t)
    ensures s == t
  {
    assert StageAt(Position(s)) == Some(s);
    assert StageAt(Position(t)) == Some(t);
  }

  /**
   * The stage that writes each key of the path table, following Build.py's
   * outputs lists; the two artifact directories are no job's output.
   */
  function Producer(k: PathKey): Option<Stage>
  {
    match k
    case PageSql => Some(DownloadPageTable)
    case LinksSql => Some(DownloadLinksTable)
    case CategorySql => Some(DownloadCategoryTable)
    case CategoryLinksSql => Some(DownloadCategoryLinksTable)
    case PagePropertiesSql => Some(DownloadPagePropertiesTable)
    case Page => Some(CreatePageTable)
    case Links => Some(CreateLinksTable)
    case Category => Some(CreateCategoryTable)
    case CategoryLinks => Some(CreateCategoryLinksTable)
    case PageProperties => Some(CreatePagePropertiesTable)
    case NormalizedLinksArray => Some(CreateNormalizedLinksArray)
    case AggregatedInlinks => Some(CreateAggregatedLinksTables)
    case AggregatedOutlinks => Some(CreateAggregatedLinksTables)
    case Pagerank => Some(ComputePagerank)
    case Tsne => Some(ComputeTsne)
    case HighDimensionalNeighbors => Some(ComputeHighDimensionalNeighbors)
    case LowDimensionalNeighbors => Some(ComputeLowDimensionalNeighbors)
    case WikimapPoints => Some(CreateWikimapDatapointsTable)
    case WikimapCategories => Some(CreateWikimapCategoriesTable)
    case Metadata => Some(CreateZoomIndex)
    case ZoomIndex => Some(CreateZoomIndex)
    case TermIndex => Some(CreateTermIndex)
    case Degrees => Some(CreateDegreesTable)
    case Vocabulary => Some(ComputeWordVocabulary)
    case Embeddings => Some(ComputeWordEmbeddings)
    case VocabularyArtifacts => None
    case EmbeddingsArtifacts => None
    case DegreePlot => Some(CreateDegreePlot)
    case IsolatedPointsPlot => Some(CreateIsolatedPointsPlot)
  }

  /** Every key a job reads is written by a stage placed before it. */
  lemma InputProducedEarlier(s: Stage, o: PathKey)
    requires o in Inputs(s)
    ensures Producer(o).Some? && Position(Producer(o).value) < Position(s)
  {
  }

  /** Every key a job writes has that job's stage as its producer. */
  lemma OutputProducer(s: Stage, o: PathKey)
    requires o in Outputs(s)
    ensures Producer(o) == Some(s)
  {
  }

  /** The auxiliary artifacts of a job are no job's output. */
  lemma ArtifactUnproduced(s: Stage, o: PathKey)
    requires o in Artifacts(s)
    ensures Producer(o) == None
  {
  }

  /** The producer of a key lists it among its outputs. */
  lemma ProducerWrites(k: PathKey)
    requires Producer(k).Some?
    ensures k in Outputs(Producer(k).value)
  {
  }

  /** The five downloads, and only they, read nothing; each writes one dump and keeps no artifact. */
  lemma DownloadsReadNothing(s: Stage)
    ensures Inputs(s) == [] <==> Position(s) < 5
    ensures Position(s) < 5 ==> |Outputs(s)| == 1 && Artifacts(s) == []
  {
  }

  /** The five downloads, and only they, have `Utils.download` as their action. */
  lemma DownloadActions(s: Stage)
    ensures StageAction(s).Download? <==> Position(s) < 5
  {
  }

  /**
   * The numeric parameters: ten embedding iterations, 100000 t-SNE points,
   * zoom-index buckets of 100, and a degree bound of 30 for both plots; no
   * other job takes a parameter.
   */
  lemma ParameterValues(s: Stage)
    ensures s == ComputeWordEmbeddings ==> Parameters(s) == map["iterations" := 10]
    ensures s == ComputeTsne ==> Parameters(s) == map["pointCount" := 100000]
    ensures s == CreateZoomIndex ==> Parameters(s) == map["bucketSize" := 100]
    ensures s == CreateDegreePlot ==> Parameters(s) == map["maxDegree" := 30]
    ensures s == CreateIsolatedPointsPlot ==> Parameters(s) == map["degreeThreshold" := 30]
    ensures s !in {ComputeWordEmbeddings, ComputeTsne, CreateZoomIndex, CreateDegreePlot, CreateIsolatedPointsPlot} ==>
      Parameters(s) == map[]
  {
  }

  /** No output is declared by two different jobs. */
  ghost predicate UniqueOutputs(jobs: seq<JobSpec>)
  {
    forall i, j, o :: 0 <= i < |jobs| && 0 <= j < |jobs| && o in jobs[i].outputs && o in jobs[j].outputs ==> i == j
  }

  /** Every input of a job is an output of a job before it. */
  ghost predicate InputsFromEarlierJobs(jobs: seq<JobSpec>)
  {
    forall i, o :: 0 <= i < |jobs| && o in jobs[i].inputs ==> exists j :: 0 <= j < i && o in jobs[j].outputs
  }

  /** Each job of the list is its stage's job, at its stage's place. */
  predicate InOrder(jobs: seq<JobSpec>)
  {
    jobs == [] ||
    (InOrder(jobs[..|jobs| - 1]) &&
     jobs[|jobs| - 1] == JobOf(jobs[|jobs| - 1].stage) && Position(jobs[|jobs| - 1].stage) == |jobs| - 1)
  }

  /** The step of each `jobs.append`: appending the job of the stage whose place is next keeps the list in order. */
  lemma AppendStage(jobs: seq<JobSpec>, s: Stage)
    requires InOrder(jobs) && |jobs| == Position(s)
    ensures InOrder(jobs + [JobOf(s)])
  {
    assert (jobs + [JobOf(s)])[..|jobs|] == jobs;
  }

  /** In a list in order, the job at index `i` is the job of the stage placed at `i`. */
  lemma {:induction false} InOrderAt(jobs: seq<JobSpec>, i: nat)
    requires InOrder(jobs) && i < |jobs|
    ensures jobs[i] == JobOf(jobs[i].stage) && Position(jobs[i].stage) == i
  {
    var last := |jobs| - 1;
    if i < last {
      InOrderAt(jobs[..last], i);
      assert jobs[..last][i] == jobs[i];
    }
  }

  /** In a list in order, no key is written by two jobs. */
  lemma InOrderUniqueOutputs(jobs: seq<JobSpec>)
    requires InOrder(jobs)
    ensures UniqueOutputs(jobs)
  {
    forall i, j, o | 0 <= i < |jobs| && 0 <= j < |jobs| && o in jobs[i].outputs && o in jobs[j].outputs
      ensures i == j
    {
      InOrderAt(jobs, i);
      InOrderAt(jobs, j);
      OutputProducer(jobs[i].stage, o);
      OutputProducer(jobs[j].stage, o);
    }
  }

  /** In a list in order, a key the job at `i` reads is written by the job at its producer's place, which is before `i`. */
  lemma InputAt(jobs: seq<JobSpec>, i: nat, o: PathKey)
    requires InOrder(jobs) && i < |jobs| && o in jobs[i].inputs
    ensures Producer(o).Some? && Position(Producer(o).value) < i
    ensures o in jobs[Position(Producer(o).value)].outputs
  {
    InOrderAt(jobs, i);
    InputProducedEarlier(jobs[i].stage, o);
    var p := Producer(o).value;
    InOrderAt(jobs, Position(p));
    PositionInjective(jobs[Position(p)].stage, p);
    ProducerWrites(o);
  }

  /** In a list in order, every key a job reads is written by an earlier job. */
  lemma InOrderInputsEarlier(jobs: seq<JobSpec>)
    requires InOrder(jobs)
    ensures InputsFromEarlierJobs(jobs)
  {
    forall i, o | 0 <= i < |jobs| && o in jobs[i].inputs
      ensures exists j :: 0 <= j < i && o in jobs[j].outputs
    {
      InputAt(jobs, i, o);
    }
  }

  /** A list in order holds every stage's job at that stage's place. */
  lemma InOrderHolds(jobs: seq<JobSpec>, s: Stage)
    requires InOrder(jobs) && Position(s) < |jobs|
    ensures jobs[Position(s)] == JobOf(s)
  {
    InOrderAt(jobs, Position(s));
    PositionInjective(jobs[Position(s)].stage, s);
  }

  /** In the list, the jobs that read nothing are exactly the first five. */
  lemma InOrderDownloadsFirst(jobs: seq<JobSpec>, i: nat)
    requires InOrder(jobs) && i < |jobs|
    ensures jobs[i].inputs == [] <==> i < 5
  {
    InOrderAt(jobs, i);
    DownloadsReadNothing(jobs[i].stage);
  }

  /** A full list in order holds every stage's job. */
  lemma InOrderHoldsAll(jobs: seq<JobSpec>)
    requires InOrder(jobs) && |jobs| == 25
    ensures forall s :: jobs[Position(s)] == JobOf(s)
  {
    forall s
      ensures jobs[Position(s)] == JobOf(s)
    {
      InOrderHolds(jobs, s);
    }
  }

  /** Two lists in order of the same length are the same list: the order fixes every job. */
  lemma InOrderUnique(a: seq<JobSpec>, b: seq<JobSpec>)
    requires InOrder(a) && InOrder(b) && |a| == |b|
    ensures a == b
  {
    forall i | 0 <= i < |a|
      ensures a[i] == b[i]
    {
      InOrderAt(a, i);
      InOrderAt(b, i);
      PositionInjective(a[i].stage, b[i].stage);
    }
  }

  /** `jobs.append(Job(…))` for the stage whose place is next in the list. */
  method Append(jobs: seq<JobSpec>, s: Stage) returns (r: seq<JobSpec>)
    requires InOrder(jobs) && |jobs| == Position(s)
    ensures r == jobs + [JobOf(s)]
    ensures InOrder(r) && |r| == |jobs| + 1
  {
    AppendStage(jobs, s);
    r := jobs + [JobOf(s)];
  }

  /** The five dump downloads, lines 49-53 of Build.py. */
  method AppendDownloads(jobs: seq<JobSpec>) returns (r: seq<JobSpec>)
    requires InOrder(jobs) && |jobs| == 0
    ensures InOrder(r) && |r| == 5
  {
    r := jobs;
    r := Append(r, DownloadPageTable);
    r := Append(r, DownloadLinksTable);
    r := Append(r, DownloadCategoryTable);
    r := Append(r, DownloadCategoryLinksTable);
    r := Append(r, DownloadPagePropertiesTable);
  }

  /** The SQL tables loaded from the dumps and the normalized links array, lines 55-60. */
  method AppendTables(jobs: seq<JobSpec>) returns (r: seq<JobSpec>)
    requires InOrder(jobs) && |jobs| == 5
    ensures InOrder(r) && |r| == 11
  {
    r := jobs;
    r := Append(r, CreatePageTable);
    r := Append(r, CreateLinksTable);
    r := Append(r, CreateCategoryTable);
    r := Append(r, CreateCategoryLinksTable);
    r := Append(r, CreatePagePropertiesTable);
    r := Append(r, CreateNormalizedLinksArray);
  }

  /** Pagerank, the word embeddings, the t-SNE layout and the neighbours, lines 62-67. */
  method AppendAnalyses(jobs: seq<JobSpec>) returns (r: seq<JobSpec>)
    requires InOrder(jobs) && |jobs| == 11
    ensures InOrder(r) && |r| == 17
  {
    r := jobs;
    r := Append(r, ComputePagerank);
    r := Append(r, ComputeWordVocabulary);
    r := Append(r, ComputeWordEmbeddings);
    r := Append(r, ComputeTsne);
    r := Append(r, ComputeHighDimensionalNeighbors);
    r := Append(r, ComputeLowDimensionalNeighbors);
  }

  /** The aggregated links, map points, map categories and degrees tables, lines 69-72. */
  method AppendMapTables(jobs: seq<JobSpec>) returns (r: seq<JobSpec>)
    requires InOrder(jobs) && |jobs| == 17
    ensures InOrder(r) && |r| == 21
  {
    r := jobs;
    r := Append(r, CreateAggregatedLinksTables);
    r := Append(r, CreateWikimapDatapointsTable);
    r := Append(r, CreateWikimapCategoriesTable);
    r := Append(r, CreateDegreesTable);
  }

  /** The zoom and term indices and the two plots, lines 73-76. */
  method AppendIndices(jobs: seq<JobSpec>) returns (r: seq<JobSpec>)
    requires InOrder(jobs) && |jobs| == 21
    ensures InOrder(r) && |r| == 25
  {
    r := jobs;
    r := Append(r, CreateZoomIndex);
    r := Append(r, CreateTermIndex);
    r := Append(r, CreateDegreePlot);
    r := Append(r, CreateIsolatedPointsPlot);
  }

  /** The shared path table `Path` of which Build.py sets the `base`. */
  class PathTable {
    var base: Option<string>

    constructor()
      ensures base == None
    {
      base := None;
    }
  }

  class Build {
    var jobs: seq<JobSpec>
    const paths: PathTable

    /** The five downloads, then the twenty processing stages, each appended after the jobs it reads from. */
    constructor(paths: PathTable)
      ensures this.paths == paths
      ensures Valid()
      ensures forall s :: jobs[Position(s)] == JobOf(s)
      ensures UniqueOutputs(jobs) && InputsFromEarlierJobs(jobs)
    {
      var js: seq<JobSpec> := [];
      js := AppendDownloads(js);
      js := AppendTables(js);
      js := AppendAnalyses(js);
      js := AppendMapTables(js);
      js := AppendIndices(js);
      InOrderUniqueOutputs(js);
      InOrderInputsEarlier(js);
      InOrderHoldsAll(js);
      this.jobs := js;
      this.paths := paths;
    }

    /** What the constructor establishes: the 25 jobs, each at its stage's place. */
    ghost predicate Valid()
      reads this
    {
      |jobs| == 25 && InOrder(jobs)
    }

    /** `__getitem__(n)`: Python indexing, from the end for negative `n`; `None` is the `IndexError`. */
    function GetItem(n: int): (r: Option<JobSpec>)
      reads this
      ensures r.Some? <==> -|jobs| <= n < |jobs|
      ensures r.Some? ==> r.value in jobs
    {
      if 0 <= n < |jobs| then Some(jobs[n])
      else if -|jobs| <= n < 0 then Some(jobs[n + |jobs|])
      else None
    }

    /** `build[n - len(build)]` is `build[n]`: a negative index counts back from the end. */
    lemma GetItemFromEnd(n: int)
      requires 0 <= n < |jobs|
      ensures GetItem(n - |jobs|) == GetItem(n)
    {
    }

    /** In the constructed build, the job at a stage's place is that stage's job. */
    lemma GetItemStage(s: Stage)
      requires Valid()
      ensures GetItem(Position(s)) == Some(JobOf(s))
      ensures GetItem(Position(s) - 25) == Some(JobOf(s))
    {
      InOrderHolds(jobs, s);
    }

    /** `__iter__`: the jobs in the order `__getitem__` numbers them. */
    function Iterate(): (r: seq<JobSpec>)
      reads this
      ensures |r| == |jobs|
      ensures forall n :: 0 <= n < |r| ==> GetItem(n) == Some(r[n])
    {
      jobs
    }

    /** `setBasePath`: the shared table's base becomes `path`; the jobs stay as they are. */
    method SetBasePath(path: string)
      modifies paths
      ensures paths.base == Some(path)
      ensures jobs == old(jobs)
    {
      paths.base := Some(path);
    }
  }
}
