/**
 * The path registry of wikimap/Paths.py: `resolve` flattens a job's declared
 * path entries against an optional base directory, `set_base` prefixes a file
 * name with a base directory when the base is truthy, and every named
 * artifact resolves against its explicit base, else the module-wide
 * `global_base`.  The module-level `global_base` is passed explicitly.
 */
module Paths {
  import opened Wrappers

  /** Python truthiness of an optional directory: `None` and `""` are falsy. */
  predicate Truthy(base: Option<string>)
  {
    base.Some? && base.value != ""
  }

  /** Python's `a or b` on optional directories: `a` when truthy, else `b`. */
  function Or(a: Option<string>, b: Option<string>): (r: Option<string>)
    ensures r == a || r == b
    ensures Truthy(r) <==> Truthy(a) || Truthy(b)
  {
    if Truthy(a) then a else b
  }

  predicate IsAbsolute(path: string)
  {
    |path| > 0 && path[0] == '/'
  }

  /**
   * `os.path.join(base, path)` for two components, as POSIX Python computes
   * it: an absolute `path` replaces `base`; otherwise a separator is inserted
   * unless `base` is empty or already ends with one.
   */
  function Join(base: string, path: string): (r: string)
    ensures IsAbsolute(path) ==> r == path
    ensures !IsAbsolute(path) ==> |base| + |path| <= |r| && r[..|base|] == base && r[|r| - |path|..] == path
  {
    if IsAbsolute(path) then path
    else if base == [] || base[|base| - 1] == '/' then base + path
    else base + "/" + path
  }

  /** For a fixed base, `Join` never maps two relative paths to the same string. */
  lemma JoinInjective(base: string, p: string, q: string)
    requires !IsAbsolute(p) && !IsAbsolute(q)
    requires Join(base, p) == Join(base, q)
    ensures p == q
  {
    var sep := if base == [] || base[|base| - 1] == '/' then "" else "/";
    assert Join(base, p) == (base + sep) + p;
    assert Join(base, q) == (base + sep) + q;
    assert p == Join(base, p)[|base + sep|..];
    assert q == Join(base, q)[|base + sep|..];
  }

  /** `set_base`: join `base` in front of `path` only when `base` is truthy. */
  function SetBase(path: string, base: Option<string>): (r: string)
    ensures |path| <= |r| && r[|r| - |path|..] == path
    ensures r == path <==> !Truthy(base) || IsAbsolute(path)
  {
    if Truthy(base) then Join(base.value, path) else path
  }

  // ---------------------------------------------------------------------
  // resolve

  /** What an entry yields: a single path or a Python list of paths. */
  datatype Value = One(path: string) | Many(paths: seq<string>)

  /** An entry of a path list: a plain value, or a callable taking `base`. */
  datatype Entry = Plain(v: Value) | Call(f: Option<string> -> Value)

  /** The paths one value contributes: a list is spliced, a scalar appended. */
  function Flat(v: Value): seq<string>
  {
    match v
    case One(p) => [p]
    case Many(ps) => ps
  }

  /** The value of one entry: a callable is called with `base`, anything else used as is. */
  function Evaluate(e: Entry, base: Option<string>): Value
  {
    match e
    case Plain(v) => v
    case Call(f) => f(base)
  }

  function Expansion(e: Entry, base: Option<string>): seq<string>
  {
    Flat(Evaluate(e, base))
  }

  /** Specification of `resolve`: the expansions of the entries, in order. */
  function Resolved(paths: seq<Entry>, base: Option<string>): seq<string>
  {
    if paths == [] then []
    else Resolved(paths[..|paths| - 1], base) + Expansion(paths[|paths| - 1], base)
  }

  /** How many paths each entry contributes: its list length, or 1 for a scalar. */
  function Width(e: Entry, base: Option<string>): nat
  {
    match Evaluate(e, base)
    case One(_) => 1
    case Many(ps) => |ps|
  }

  function TotalWidth(paths: seq<Entry>, base: Option<string>): nat
  {
    if paths == [] then 0 else Width(paths[0], base) + TotalWidth(paths[1..], base)
  }

  /** `resolve(paths, base)`: the loop accumulating `resolved` with append/extend. */
  method Resolve(paths: seq<Entry>, base: Option<string>) returns (resolved: seq<string>)
    ensures resolved == Resolved(paths, base)
    ensures |resolved| == TotalWidth(paths, base)
  {
    resolved := [];
    var i := 0;
    while i < |paths|
      invariant 0 <= i <= |paths|
      invariant resolved == Resolved(paths[..i], base)
    {
      var p := paths[i];
      var more := if p.Call? then p.f(base) else p.v;
      if more.Many? {
        resolved := resolved + more.paths;
      } else {
        resolved := resolved + [more.path];
      }
      assert paths[..i + 1][..i] == paths[..i];
      i := i + 1;
    }
    assert paths[..i] == paths;
    ResolvedLength(paths, base);
  }

  /** Resolving a concatenation resolves each part and concatenates, in order. */
  lemma {:induction false} ResolvedAppend(a: seq<Entry>, b: seq<Entry>, base: Option<string>)
    ensures Resolved(a + b, base) == Resolved(a, base) + Resolved(b, base)
  {
    if b == [] {
      assert a + b == a;
    } else {
      var b' := b[..|b| - 1];
      assert (a + b)[..|a + b| - 1] == a + b';
      ResolvedAppend(a, b', base);
    }
  }

  /** `resolve([])` is `[]`, and a single entry resolves to its own expansion. */
  lemma ResolvedSmall(e: Entry, base: Option<string>)
    ensures Resolved([], base) == []
    ensures Resolved([e], base) == Expansion(e, base)
  {
    assert [e][..0] == [];
  }

  /** The result's length is the sum of the entries' widths. */
  lemma {:induction false} ResolvedLength(paths: seq<Entry>, base: Option<string>)
    ensures |Resolved(paths, base)| == TotalWidth(paths, base)
  {
    if paths != [] {
      assert paths == [paths[0]] + paths[1..];
      ResolvedAppend([paths[0]], paths[1..], base);
      ResolvedSmall(paths[0], base);
      ResolvedLength(paths[1..], base);
    }
  }

  /**
   * Order: the expansion of entry `i` sits in the result right after the
   * expansions of all earlier entries.
   */
  lemma ResolvedEntryAt(paths: seq<Entry>, base: Option<string>, i: nat)
    requires i < |paths|
    ensures var start := |Resolved(paths[..i], base)|;
      var e := Expansion(paths[i], base);
      start + |e| <= |Resolved(paths, base)| &&
      Resolved(paths, base)[start..start + |e|] == e
  {
    assert paths == paths[..i] + ([paths[i]] + paths[i + 1..]);
    ResolvedAppend(paths[..i], [paths[i]] + paths[i + 1..], base);
    ResolvedAppend([paths[i]], paths[i + 1..], base);
    ResolvedSmall(paths[i], base);
  }

  // ---------------------------------------------------------------------
  // the named artifacts

  datatype Artifact =
    | PagesDump | LinksDump | CategoryLinksDump | PagePropertiesDump | RedirectsDump
    | Pages | Links | CategoryLinks | PageProperties | Redirects
    | Pagerank | Tsne | HighDimensionalNeighbors | LowDimensionalNeighbors
    | WikimapPoints | WikimapCategories | Metadata | ArticleMapping
    | ZoomIndex | TermIndex | LinkEdges | Embeddings
    | AggregatedInlinks | AggregatedOutlinks | TitleIndex | EmbeddingReport

  /** The file name each artifact function hands to `set_base`. */
  function FileName(a: Artifact): string
  {
    match a
    case PagesDump => "page.sql.gz"
    case LinksDump => "pagelinks.sql.gz"
    case CategoryLinksDump => "categorylinks.sql.gz"
    case PagePropertiesDump => "page_props.sql.gz"
    case RedirectsDump => "redirect.sql.gz"
    case Pages => "pages.db"
    case Links => "links.db"
    case CategoryLinks => "category_links.db"
    case PageProperties => "page_properties.db"
    case Redirects => "redirects.db"
    case Pagerank => "pagerank.db"
    case Tsne => "tsne.db"
    case HighDimensionalNeighbors => "hdnn.db"
    case LowDimensionalNeighbors => "ldnn.db"
    case WikimapPoints => "wikimap_points.db"
    case WikimapCategories => "wikimap_categories.db"
    case Metadata => "metadata.db"
    case ArticleMapping => "article_mapping.bin"
    case ZoomIndex => "zoom_index.idx"
    case TermIndex => "term_index.idx"
    case LinkEdges => "link_edges.bin"
    case Embeddings => "embeddings.cdb"
    case AggregatedInlinks => "aggregated_inlinks.cdb"
    case AggregatedOutlinks => "aggregated_outlinks.cdb"
    case TitleIndex => "title_index.idx"
    case EmbeddingReport => "embedding_report.txt"
  }

  /** The artifact whose file name is `name`, if any: the inverse of `FileName`. */
  function ArtifactNamed(name: string): Option<Artifact>
  {
    // grouped by length, so that only names of equal length are compared
    if |name| == 7 then
      if name == "tsne.db" then Some(Tsne)
      else if name == "hdnn.db" then Some(HighDimensionalNeighbors)
      else if name == "ldnn.db" then Some(LowDimensionalNeighbors) else None
    else if |name| == 8 then
      if name == "pages.db" then Some(Pages)
      else if name == "links.db" then Some(Links) else None
    else if |name| == 11 then
      if name == "page.sql.gz" then Some(PagesDump)
      else if name == "pagerank.db" then Some(Pagerank)
      else if name == "metadata.db" then Some(Metadata) else None
    else if |name| == 12 then
      if name == "redirects.db" then Some(Redirects) else None
    else if |name| == 14 then
      if name == "zoom_index.idx" then Some(ZoomIndex)
      else if name == "term_index.idx" then Some(TermIndex)
      else if name == "link_edges.bin" then Some(LinkEdges)
      else if name == "embeddings.cdb" then Some(Embeddings) else None
    else if |name| == 15 then
      if name == "redirect.sql.gz" then Some(RedirectsDump)
      else if name == "title_index.idx" then Some(TitleIndex) else None
    else if |name| == 16 then
      if name == "pagelinks.sql.gz" then Some(LinksDump) else None
    else if |name| == 17 then
      if name == "page_props.sql.gz" then Some(PagePropertiesDump)
      else if name == "category_links.db" then Some(CategoryLinks)
      else if name == "wikimap_points.db" then Some(WikimapPoints) else None
    else if |name| == 18 then
      if name == "page_properties.db" then Some(PageProperties) else None
    else if |name| == 19 then
      if name == "article_mapping.bin" then Some(ArticleMapping) else None
    else if |name| == 20 then
      if name == "categorylinks.sql.gz" then Some(CategoryLinksDump)
      else if name == "embedding_report.txt" then Some(EmbeddingReport) else None
    else if |name| == 21 then
      if name == "wikimap_categories.db" then Some(WikimapCategories) else None
    else if |name| == 22 then
      if name == "aggregated_inlinks.cdb" then Some(AggregatedInlinks) else None
    else if |name| == 23 then
      if name == "aggregated_outlinks.cdb" then Some(AggregatedOutlinks) else None
    else None
  }

  /** Every file name is relative and names its artifact back. */
  lemma FileNameRoundTrip(a: Artifact)
    ensures ArtifactNamed(FileName(a)) == Some(a)
    ensures !IsAbsolute(FileName(a))
  {
    match a
    case PagesDump =>
    case LinksDump =>
    case CategoryLinksDump =>
    case PagePropertiesDump =>
    case RedirectsDump =>
    case Pages =>
    case Links =>
    case CategoryLinks =>
    case PageProperties =>
    case Redirects =>
    case Pagerank =>
    case Tsne =>
    case HighDimensionalNeighbors =>
    case LowDimensionalNeighbors =>
    case WikimapPoints =>
    case WikimapCategories =>
    case Metadata =>
    case ArticleMapping =>
    case ZoomIndex =>
    case TermIndex =>
    case LinkEdges =>
    case Embeddings =>
    case AggregatedInlinks =>
    case AggregatedOutlinks =>
    case TitleIndex =>
    case EmbeddingReport =>
  }

  /** The artifact function for `a`: `set_base(name, base or global_base)`. */
  function ArtifactPath(a: Artifact, base: Option<string>, globalBase: Option<string>): (r: string)
    ensures Truthy(base) ==> r == Join(base.value, FileName(a))
    ensures !Truthy(base) && Truthy(globalBase) ==> r == Join(globalBase.value, FileName(a))
    ensures !Truthy(base) && !Truthy(globalBase) ==> r == FileName(a)
  {
    SetBase(FileName(a), Or(base, globalBase))
  }

  /** Distinct artifacts resolve to distinct paths under the same bases. */
  lemma ArtifactPathsDistinct(a: Artifact, b: Artifact, base: Option<string>, globalBase: Option<string>)
    requires a != b
    ensures ArtifactPath(a, base, globalBase) != ArtifactPath(b, base, globalBase)
  {
    FileNameRoundTrip(a);
    FileNameRoundTrip(b);
    var dir := Or(base, globalBase);
    if Truthy(dir) && ArtifactPath(a, base, globalBase) == ArtifactPath(b, base, globalBase) {
      JoinInjective(dir.value, FileName(a), FileName(b));
    }
  }

  /** An artifact as an entry of a job's path list: called with the resolving base. */
  function ArtifactEntry(a: Artifact, globalBase: Option<string>): (e: Entry)
    ensures forall base :: Expansion(e, base) == [ArtifactPath(a, base, globalBase)]
  {
    Call(base => One(ArtifactPath(a, base, globalBase)))
  }
}
