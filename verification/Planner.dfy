/** `DeterministicPlanner.plan` of `src/fetech/planning.py`. */
module Planner {
  import opened Common
  import opened Plan
  import opened PlanText

  // ---- Capability tables -------------------------------------------------------------------

  const DOCUMENT_CAPABILITIES := [
    "pdf", "scanned_pdf", "docx", "pptx", "xlsx", "csv", "txt", "markdown", "json_file", "xml_file",
    "zip_archive", "github_raw", "git_lfs", "dataset_file"]
  const MEDIA_CAPABILITIES := [
    "image", "image_metadata", "image_ocr", "screenshot_to_text", "video_metadata", "audio_metadata",
    "transcript", "youtube_metadata", "podcast_feed", "thumbnail", "exif_metadata"]
  const CACHE_CAPABILITIES := [
    "search_snippet_cache", "search_cache", "search_engine_cache_adapter", "alternate_search_cache_adapter",
    "web_archive", "internet_archive_snapshot", "local_snapshot", "previous_successful_snapshot", "cdn_copy",
    "browser_cache", "rag_document_cache"]
  const PRE_CACHE := [
    "previous_successful_snapshot", "search_engine_cache_adapter", "alternate_search_cache_adapter",
    "web_archive", "internet_archive_snapshot", "cdn_copy"]
  const POST_CACHE := [
    "search_snippet_cache", "search_cache", "local_snapshot", "browser_cache", "rag_document_cache"]
  const READER_CAPABILITIES := [
    "raw_html", "clean_text", "main_article", "boilerplate_removal", "mozilla_readability", "trafilatura",
    "newspaper_style", "mercury_style", "jina_reader", "browser_reader_mode"]
  const BROWSER_ENGINES := ["playwright", "puppeteer", "selenium", "cdp"]
  const BROWSER_EMBEDDED := [
    "headless_dom", "visible_text", "screenshot", "wait_for_selector", "wait_for_network_idle",
    "scroll_to_load", "click_expand", "cookie_banner_handling", "lazy_loading", "javascript_rendering",
    "spa_route_handling"]
  const API_CAPABILITIES := [
    "rest", "graphql", "json_endpoint", "xml_endpoint", "rss", "atom", "sitemap_xml", "openapi_discovery",
    "github_api", "semantic_scholar_api", "arxiv_api", "openreview_api", "crossref_openalex_api"]
  const HTTP_EMBEDDED_AUTH := ["api_key", "bearer_token", "connector_auth", "cookie_session"]
  /** In the order in which a request selects its HTTP operation; the default comes last. */
  const HTTP_CAPABILITIES := ["http_head", "http_post", "browser_header_http", "range_request", "http_get"]

  const DOCUMENT_SUFFIXES := [".csv", ".docx", ".epub", ".md", ".markdown", ".pdf", ".pptx", ".txt", ".xls", ".xlsx"]
  const IMAGE_SUFFIXES := [".gif", ".jpeg", ".jpg", ".png", ".tif", ".tiff", ".webp"]
  const AUDIO_SUFFIXES := [".aac", ".flac", ".m4a", ".mp3", ".wav"]
  const VIDEO_SUFFIXES := [".mp4", ".webm"]
  const ARCHIVE_SUFFIXES := [".7z", ".bz2", ".gz", ".rar", ".tar", ".tgz", ".zip"]
  const DATA_SUFFIXES := [".json", ".xml"]
  // What an output may be called that is not a capability.
  const DOCUMENT_NAMES := ["document", "tables", "ocr", "slides"]
  const MEDIA_NAMES := ["audio", "frames", "image", "subtitles", "transcript", "video"]
  const DATA_NAMES := ["json", "xml", "feed"]

  // ---- Requests, registry and errors -------------------------------------------------------

  /** A request as the planner sees it: the URL matters only by path suffix and named API. */
  datatype Request = Request(suffix: string, namedApi: Option<string>, intent: string, outputs: seq<string>,
                             authenticated: bool, allow: set<string>, deny: set<string>)

  datatype Registry = Registry(ids: set<string>, aliases: map<string, string>,
                               available: set<string>, schedulable: set<string>)
  {
    function Resolve(capability: string): Option<string> {
      if capability in ids then Some(capability)
      else if capability in aliases then Some(aliases[capability])
      else None
    }
  }

  datatype PlanError =
    | SessionConflict | ApiConflict | RagNeedsCleanText | RenderTarget | RenderNeedsPlaywright
    | HttpDenied | MissingDependency | UnknownCapability | OutputsDenied | OutputsUnscheduled

  datatype Family = Web | CacheOnly | DocumentFamily | MediaFamily | ArchiveFamily | ApiFamily

  predicate IsHttp(capability: string) {
    capability in HTTP_CAPABILITIES
  }

  // ---- Small pure helpers ------------------------------------------------------------------

  /** The capabilities of a table that were requested, in table order. */
  function Pick(table: seq<string>, wanted: seq<string>): (r: seq<string>)
    ensures forall c :: c in r <==> c in table && c in wanted
    ensures |r| <= |table|
  {
    if table == [] then []
    else if table[0] in wanted then [table[0]] + Pick(table[1..], wanted)
    else Pick(table[1..], wanted)
  }

  /** Requested outputs under their canonical names, each once, in order of first mention. */
  function Canonical(registry: Registry, outputs: seq<string>): seq<string> {
    if outputs == [] then []
    else
      var front := Canonical(registry, outputs[..|outputs| - 1]);
      var resolved := registry.Resolve(outputs[|outputs| - 1]);
      var name := if resolved.Some? then resolved.value else outputs[|outputs| - 1];
      if name in front then front else front + [name]
  }

  function Classify(suffix: string, namedApi: Option<string>, outputs: seq<string>): Family {
    if Pick(CACHE_CAPABILITIES, outputs) != [] && (forall c :: c in outputs ==> c in CACHE_CAPABILITIES) then CacheOnly
    else if Pick(DOCUMENT_CAPABILITIES, outputs) != [] then
      if "zip_archive" in outputs then ArchiveFamily else DocumentFamily
    else if Pick(MEDIA_CAPABILITIES, outputs) != [] then MediaFamily
    else if Pick(API_CAPABILITIES, outputs) != [] || namedApi.Some? then ApiFamily
    else if suffix in DOCUMENT_SUFFIXES || Pick(DOCUMENT_NAMES, outputs) != [] then DocumentFamily
    else if suffix in IMAGE_SUFFIXES + AUDIO_SUFFIXES + VIDEO_SUFFIXES
            || Pick(MEDIA_NAMES, outputs) != [] then MediaFamily
    else if suffix in ARCHIVE_SUFFIXES || "archive" in outputs then ArchiveFamily
    else if suffix in DATA_SUFFIXES || Pick(DATA_NAMES, outputs) != [] then ApiFamily
    else Web
  }

  function HttpCapability(outputs: seq<string>): (r: string)
    ensures IsHttp(r)
  {
    var requested := Pick(["http_head", "http_post", "browser_header_http", "range_request"], outputs);
    if requested != [] then assert requested[0] in requested; requested[0] else "http_get"
  }

  function DocumentCapability(suffix: string): (r: string)
    ensures r in DOCUMENT_CAPABILITIES
  {
    if suffix == ".md" || suffix == ".markdown" then "markdown"
    else if suffix == ".json" then "json_file"
    else if suffix == ".xml" then "xml_file"
    else if suffix == ".csv" then "csv"
    else if suffix == ".docx" then "docx"
    else if suffix == ".pdf" then "pdf"
    else if suffix == ".pptx" then "pptx"
    else if suffix == ".txt" then "txt"
    else if suffix == ".xlsx" then "xlsx"
    else "dataset_file"
  }

  function MediaCapability(suffix: string): (r: string)
    ensures r in MEDIA_CAPABILITIES
  {
    if suffix in IMAGE_SUFFIXES then "image_metadata"
    else if suffix in AUDIO_SUFFIXES then "audio_metadata"
    else "video_metadata"
  }

  /** Whether the request's allow and deny lists admit a capability; unknown ones raise. */
  function Permitted(registry: Registry, request: Request, capability: string): bool {
    var canonical := registry.Resolve(capability);
    if canonical.None? || canonical.value in request.deny then false
    else if request.allow != {} && canonical.value !in request.allow then
      canonical.value in HTTP_CAPABILITIES + ["url_normalisation", "url_validation"]
    else true
  }

  /** The name under which the registry knows a capability: its own, or the one an alias stands for. */
  predicate Known(registry: Registry, capability: string, id: string) {
    if capability in registry.ids then id == capability
    else capability in registry.aliases && id == registry.aliases[capability]
  }

  /**
   The request's lists admit a capability: it is known, not denied, and allowed if there is an allow list,
   where the HTTP operations and the two checks of the URL need no mention.
   */
  ghost predicate Admits(registry: Registry, request: Request, capability: string) {
    exists id ::
      && Known(registry, capability, id)
      && id !in request.deny
      && (|| request.allow == {} || id in request.allow
          || id == "http_get" || id == "http_head" || id == "http_post" || id == "browser_header_http" || id == "range_request"
          || id == "url_normalisation" || id == "url_validation")
  }

  lemma PermittedIsAdmitted(registry: Registry, request: Request, capability: string)
    ensures Permitted(registry, request, capability) <==> Admits(registry, request, capability)
  {
    if Permitted(registry, request, capability) {
      var id := registry.Resolve(capability).value;
      assert Known(registry, capability, id);
    }
    if Admits(registry, request, capability) {
      var id :| && Known(registry, capability, id) && id !in request.deny
                && (|| request.allow == {} || id in request.allow
                    || id == "http_get" || id == "http_head" || id == "http_post" || id == "browser_header_http"
                    || id == "range_request" || id == "url_normalisation" || id == "url_validation");
      assert registry.Resolve(capability) == Some(id);
    }
  }

  // ---- The shape of a plan under construction ----------------------------------------------

  predicate Ranked(nodes: seq<PlanNode>) {
    forall i, j :: 0 <= i < j < |nodes| ==> Before(nodes[i].id, nodes[j].id)
  }

  predicate AllBefore(nodes: seq<PlanNode>, id: NodeId) {
    forall n :: n in nodes ==> Before(n.id, id)
  }

  predicate AllBelow(nodes: seq<PlanNode>, stage: nat) {
    forall n :: n in nodes ==> Stage(n.id) < stage
  }

  /** What each node the planner writes looks like. */
  predicate NodeOk(n: PlanNode) {
    && Nameable(n.id)
    && (n.adapter == "http" <==> n.id == Http)
    && (IsHttp(n.capability) ==> n.id == Http)
    && (match n.id
        case Normalize => n.adapter == "core" && n.dependencies == [] && n.group.None? && n.fallbackFor.None?
        case Policy => n.adapter == "core" && n.dependencies == [Normalize] && n.group.None? && n.fallbackFor.None?
        case _ => && n.adapter != "core" && |n.dependencies| == 1
                  && n.dependencies[0] != Normalize && Before(n.dependencies[0], n.id)
                  && (n.id.AuthSession? ==> n.adapter == "auth" && n.group.None? && n.fallbackFor.None?)
                  && (n.id == AuthForm || (n.id == Http && n.capability == "http_post") ==> n.requiresApproval && n.retries == 0)
                  && (n.id == AuthForm ==> n.capability == "form_submit")
                  && (Stage(n.id) > 4 ==> Stage(n.dependencies[0]) > 2))
  }

  /** What the cache lookups and the acquisition wait for: the requested session, or else the policy. */
  function Gate(outputs: seq<string>): NodeId {
    var sessions := Pick(SESSIONS, outputs);
    if |sessions| == 1 then AuthSession(sessions[0]) else Policy
  }

  predicate Gated(nodes: seq<PlanNode>, gate: NodeId) {
    forall n :: n in nodes && 3 <= Stage(n.id) <= 4 ==> n.dependencies == [gate]
  }

  predicate Shaped(nodes: seq<PlanNode>) {
    Ranked(nodes) && forall n :: n in nodes ==> NodeOk(n)
  }

  /** What a node depends on is among the nodes. */
  predicate HasDependencies(nodes: seq<PlanNode>, n: PlanNode) {
    forall d :: d in n.dependencies ==> d in Ids(nodes)
  }

  predicate Rooted(nodes: seq<PlanNode>) {
    forall n :: n in nodes ==> HasDependencies(nodes, n)
  }

  /** The planner writes no capability outside its tables. */
  predicate AllWritten(nodes: seq<PlanNode>) {
    forall n {:trigger Written(n.capability)} :: n in nodes ==> Written(n.capability)
  }

  /** A plan under construction: in order, well-formed, and closed under dependencies. */
  predicate Built(nodes: seq<PlanNode>) {
    Shaped(nodes) && Rooted(nodes) && AllWritten(nodes)
  }

  /** A node that may come next. */
  predicate Fits(nodes: seq<PlanNode>, n: PlanNode) {
    NodeOk(n) && Written(n.capability) && HasDependencies(nodes, n)
  }

  lemma AppendBuilt(nodes: seq<PlanNode>, n: PlanNode)
    requires Built(nodes) && AllBefore(nodes, n.id) && Fits(nodes, n)
    ensures Built(nodes + [n])
  {
    AppendShaped(nodes, n);
    GrowIds(nodes, n);
    forall m | m in nodes + [n] ensures HasDependencies(nodes + [n], m) {
      assert m in nodes ==> HasDependencies(nodes, m);
    }
  }

  lemma AppendShaped(nodes: seq<PlanNode>, n: PlanNode)
    requires Shaped(nodes) && AllBefore(nodes, n.id) && NodeOk(n)
    ensures Shaped(nodes + [n])
    ensures forall k :: AllBelow(nodes, k) && Stage(n.id) < k ==> AllBelow(nodes + [n], k)
  {
    forall i, j | 0 <= i < j < |nodes + [n]| ensures Before((nodes + [n])[i].id, (nodes + [n])[j].id) {
      if j == |nodes| {
        assert nodes[i] in nodes;
      }
    }
  }

  /** What the planner writes by name. */
  const NAMED := ["url_normalisation", "url_validation", "csrf_token", "form_submit", "depth_limited_crawl",
                  "candidate_url_expansion", "zip_archive", "clean_text", "playwright"]

  /** A capability that the planner may write into a plan. */
  predicate Written(capability: string) {
    || capability in NAMED || capability in HTTP_CAPABILITIES || capability in SESSIONS || capability in PRE_CACHE
    || capability in READER_CAPABILITIES || capability in BROWSER_ENGINES || capability in DOCUMENT_CAPABILITIES
    || capability in MEDIA_CAPABILITIES || capability in API_CAPABILITIES || capability in POST_CACHE
  }

  /** Only the HTTP node carries an HTTP operation: the other tables and names avoid them. */
  lemma CacheAvoidsHttp(c: string)
    requires c in PRE_CACHE || c in POST_CACHE
    ensures !IsHttp(c)
  {
  }

  lemma ReaderAvoidsHttp(c: string)
    requires c in READER_CAPABILITIES
    ensures !IsHttp(c)
  {
  }

  lemma ExtractorAvoidsHttp(c: string)
    requires c in DOCUMENT_CAPABILITIES || c in MEDIA_CAPABILITIES
    ensures !IsHttp(c)
  {
  }

  lemma ApiAvoidsHttp(c: string)
    requires c in API_CAPABILITIES
    ensures !IsHttp(c)
  {
  }

  lemma SessionAvoidsHttp(c: string)
    requires c in BROWSER_ENGINES || c in SESSIONS
    ensures !IsHttp(c)
  {
  }

  lemma NameOk(c: string)
    requires c in NAMED
    ensures !IsHttp(c) && Written(c)
  {
  }

  // ---- The stages of `plan` ----------------------------------------------------------------

  function Node(id: NodeId, capability: string, adapter: string, dependency: NodeId): PlanNode {
    PlanNode(id, capability, adapter, [dependency], None, None, false, false, 1)
  }

  /** One node per capability was appended, in order, all of them on one adapter and in one group. */
  predicate Appends(before: seq<PlanNode>, nodes: seq<PlanNode>, capabilities: seq<string>, adapter: string,
                    group: Option<string>)
  {
    && |nodes| == |before| + |capabilities| && before <= nodes
    && (forall i :: 0 <= i < |capabilities| ==> IsFor(nodes[|before| + i], capabilities[i], adapter, group))
  }

  predicate IsFor(n: PlanNode, capability: string, adapter: string, group: Option<string>) {
    n.capability == capability && n.adapter == adapter && n.group == group
  }

  /** Each appended node is the fallback of the one appended before it. */
  predicate FallbackChain(before: seq<PlanNode>, nodes: seq<PlanNode>) {
    forall i :: |before| <= i < |nodes| ==> nodes[i].fallbackFor == LastAdded(before, nodes[..i])
  }

  lemma AppendsOne(before: seq<PlanNode>, nodes: seq<PlanNode>, capabilities: seq<string>, i: nat, adapter: string,
                   group: Option<string>, n: PlanNode)
    requires i < |capabilities| && Appends(before, nodes, capabilities[..i], adapter, group)
    requires IsFor(n, capabilities[i], adapter, group)
    ensures Appends(before, nodes + [n], capabilities[..i + 1], adapter, group)
  {
    var front, more := capabilities[..i], capabilities[..i + 1];
    forall k | 0 <= k < |more| ensures IsFor((nodes + [n])[|before| + k], more[k], adapter, group) {
      if k < i {
        assert IsFor(nodes[|before| + k], front[k], adapter, group);
      }
    }
  }

  /** The appended nodes all wait for the same node. */
  predicate WaitFor(before: seq<PlanNode>, nodes: seq<PlanNode>, dependency: NodeId) {
    forall i :: |before| <= i < |nodes| ==> nodes[i].dependencies == [dependency]
  }

  function LastAdded(before: seq<PlanNode>, nodes: seq<PlanNode>): Option<NodeId>
  {
    if |nodes| <= |before| then None else Some(nodes[|nodes| - 1].id)
  }

  lemma ChainOne(before: seq<PlanNode>, nodes: seq<PlanNode>, n: PlanNode)
    requires before <= nodes && FallbackChain(before, nodes)
    requires n.fallbackFor == LastAdded(before, nodes)
    ensures FallbackChain(before, nodes + [n])
  {
    var all := nodes + [n];
    forall i | |before| <= i < |all| ensures all[i].fallbackFor == LastAdded(before, all[..i]) {
      assert all[..i] == nodes[..i];
      if i < |nodes| {
        assert all[i] == nodes[i];
      } else {
        assert nodes[..i] == nodes;
      }
    }
  }

  /** Append one node to a plan under construction. */
  method Add(before: seq<PlanNode>, node: PlanNode) returns (nodes: seq<PlanNode>)
    requires Built(before) && AllBefore(before, node.id) && Fits(before, node)
    ensures nodes == before + [node] && Built(nodes)
    ensures Ids(nodes) == Ids(before) + {node.id}
    ensures forall k :: AllBelow(before, k) && Stage(node.id) < k ==> AllBelow(nodes, k)
  {
    AppendBuilt(before, node);
    AppendShaped(before, node);
    GrowIds(before, node);
    nodes := before + [node];
  }

  /** A numbered series of nodes of one stage is being appended, and `i` of them are in place. */
  predicate Series(before: seq<PlanNode>, nodes: seq<PlanNode>, stage: nat, capabilities: seq<string>, i: nat,
                   adapter: string, group: Option<string>)
    requires i <= |capabilities|
  {
    && Built(nodes) && AllBelow(nodes, stage + 1)
    && (forall n :: n in nodes && Stage(n.id) == stage ==> Index(n.id) < i)
    && Appends(before, nodes, capabilities[..i], adapter, group)
  }

  lemma StartSeries(before: seq<PlanNode>, stage: nat, capabilities: seq<string>, adapter: string, group: Option<string>)
    requires Built(before) && AllBelow(before, stage)
    ensures Series(before, before, stage, capabilities, 0, adapter, group)
  {
  }

  lemma EndSeries(before: seq<PlanNode>, nodes: seq<PlanNode>, stage: nat, capabilities: seq<string>,
                  adapter: string, group: Option<string>)
    requires Series(before, nodes, stage, capabilities, |capabilities|, adapter, group)
    ensures Built(nodes) && AllBelow(nodes, stage + 1) && Appends(before, nodes, capabilities, adapter, group)
  {
    assert capabilities[..|capabilities|] == capabilities;
  }

  /** Append the next node of a series. */
  method AddNext(before: seq<PlanNode>, nodes0: seq<PlanNode>, stage: nat, capabilities: seq<string>, i: nat,
                 adapter: string, group: Option<string>, node: PlanNode)
    returns (nodes: seq<PlanNode>)
    requires i < |capabilities| && Series(before, nodes0, stage, capabilities, i, adapter, group)
    requires Fits(nodes0, node) && Stage(node.id) == stage && Index(node.id) == i
    requires IsFor(node, capabilities[i], adapter, group)
    ensures nodes == nodes0 + [node] && Series(before, nodes, stage, capabilities, i + 1, adapter, group)
    ensures Ids(nodes) == Ids(nodes0) + {node.id}
  {
    AppendsOne(before, nodes0, capabilities, i, adapter, group, node);
    nodes := Add(nodes0, node);
  }

  lemma BelowWeakens(nodes: seq<PlanNode>, j: nat, k: nat)
    requires AllBelow(nodes, j) && j <= k
    ensures AllBelow(nodes, k)
  {
  }

  /** The two core nodes, and the requested session if there is one. */
  predicate CoreIs(outputs: seq<string>, core: seq<PlanNode>) {
    && |core| == (if Gate(outputs) == Policy then 2 else 3)
    && core[0].id == Normalize && IsFor(core[0], "url_normalisation", "core", None)
    && core[1].id == Policy && IsFor(core[1], "url_validation", "core", None)
    && (|core| == 3 ==> Gate(outputs) == AuthSession(core[2].capability) && core[2].id == Gate(outputs) && core[2].adapter == "auth")
  }

  /** The two core nodes and, at most once, a high-level authentication session. */
  method CoreNodes(outputs: seq<string>) returns (r: Result<(seq<PlanNode>, NodeId), PlanError>)
    ensures r.Err? <==> |Pick(SESSIONS, outputs)| > 1
    ensures r.Err? ==> r.error == SessionConflict
    ensures r.Ok? ==> && Built(r.value.0) && AllBelow(r.value.0, 3)
                      && r.value.1 == Gate(outputs)
                      && Stage(r.value.1) < 3 && r.value.1 != Normalize && r.value.1 in Ids(r.value.0)
                      && CoreIs(outputs, r.value.0)
  {
    var nodes := CorePair();
    var sessions := Pick(SESSIONS, outputs);
    if |sessions| > 1 {
      return Err(SessionConflict);
    }
    if sessions == [] {
      return Ok((nodes, Policy));
    }
    assert sessions[0] in sessions;
    var node := Node(AuthSession(sessions[0]), sessions[0], "auth", Policy).(retries := 0);
    SessionOk(node);
    nodes := Add(nodes, node);
    return Ok((nodes, AuthSession(sessions[0])));
  }

  method CorePair() returns (nodes: seq<PlanNode>)
    ensures Built(nodes) && AllBelow(nodes, 2) && Ids(nodes) == {Normalize, Policy} && |nodes| == 2
    ensures nodes[0].id == Normalize && IsFor(nodes[0], "url_normalisation", "core", None)
    ensures nodes[1].id == Policy && IsFor(nodes[1], "url_validation", "core", None)
  {
    NameOk("url_normalisation");
    NameOk("url_validation");
    nodes := Add([], PlanNode(Normalize, "url_normalisation", "core", [], None, None, false, false, 1));
    nodes := Add(nodes, Node(Policy, "url_validation", "core", Normalize));
  }

  lemma SessionOk(n: PlanNode)
    requires n.id.AuthSession? && n.id.capability == n.capability && n.capability in SESSIONS && n.adapter == "auth"
    requires n.dependencies == [Policy] && n.group.None? && n.fallbackFor.None?
    ensures NodeOk(n) && Written(n.capability)
  {
    SessionAvoidsHttp(n.capability);
  }

  /** Cache lookups that run before the acquisition, each the fallback of the one before it. */
  method PreCacheNodes(registry: Registry, request: Request, outputs: seq<string>,
                       before: seq<PlanNode>, dependency: NodeId)
    returns (nodes: seq<PlanNode>, last: Option<NodeId>, lookups: map<string, NodeId>)
    requires Built(before) && AllBelow(before, 3) && Stage(dependency) < 3 && dependency != Normalize && dependency in Ids(before)
    ensures Built(nodes) && AllBelow(nodes, 4) && before <= nodes && Gated(nodes, dependency) && dependency in Ids(nodes)
    ensures forall c :: c in lookups ==> lookups[c] in Ids(nodes) && Stage(lookups[c]) == 3
    ensures Hang(before, nodes, dependency) && last == LastAdded(before, nodes)
    ensures Appends(before, nodes, Lookups(registry, request, outputs), "cache", None)
    ensures forall c :: c in lookups <==> c in Lookups(registry, request, outputs)
  {
    var selected := PreCacheSelection(registry, request, outputs);
    nodes, last, lookups := LookupSeries(selected, before, dependency);
  }

  method LookupSeries(selected: seq<string>, before: seq<PlanNode>, dependency: NodeId)
    returns (nodes: seq<PlanNode>, last: Option<NodeId>, lookups: map<string, NodeId>)
    requires Built(before) && AllBelow(before, 3) && Stage(dependency) < 3 && dependency != Normalize && dependency in Ids(before)
    requires forall c :: c in selected ==> c in PRE_CACHE
    ensures Built(nodes) && AllBelow(nodes, 4) && before <= nodes && Gated(nodes, dependency) && dependency in Ids(nodes)
    ensures Hang(before, nodes, dependency) && last == LastAdded(before, nodes)
    ensures Appends(before, nodes, selected, "cache", None) && LookupsFor(lookups, nodes, selected, |selected|)
  {
    nodes, last, lookups := before, None, map[];
    StartSeries(before, 3, selected, "cache", None);
    for i := 0 to |selected|
      invariant Series(before, nodes, 3, selected, i, "cache", None) && Gated(nodes, dependency) && dependency in Ids(nodes)
      invariant Hang(before, nodes, dependency) && last == LastAdded(before, nodes)
      invariant LookupsFor(lookups, nodes, selected, i)
    {
      assert selected[i] in selected;
      ghost var was := nodes;
      nodes := AddLookup(before, nodes, selected, i, dependency, last);
      LookupsGrow(lookups, was, nodes, selected, i);
      lookups := lookups[selected[i] := CachePre(i, selected[i])];
      last := Some(CachePre(i, selected[i]));
    }
    EndSeries(before, nodes, 3, selected, "cache", None);
  }

  /** The lookups by capability, for the first `i` of the selected ones. */
  ghost predicate LookupsFor(lookups: map<string, NodeId>, nodes: seq<PlanNode>, selected: seq<string>, i: nat)
    requires i <= |selected|
  {
    && (forall c :: c in lookups <==> c in selected[..i])
    && (i == |selected| ==> forall c :: c in lookups <==> c in selected)
    && (forall c :: c in lookups ==> lookups[c] in Ids(nodes) && Stage(lookups[c]) == 3)
  }

  method AddLookup(before: seq<PlanNode>, nodes0: seq<PlanNode>, selected: seq<string>, i: nat, dependency: NodeId,
                   last: Option<NodeId>)
    returns (nodes: seq<PlanNode>)
    requires i < |selected| && Series(before, nodes0, 3, selected, i, "cache", None) && Gated(nodes0, dependency)
    requires selected[i] in PRE_CACHE && Stage(dependency) < 3 && dependency != Normalize && dependency in Ids(nodes0)
    requires Hang(before, nodes0, dependency) && last == LastAdded(before, nodes0)
    ensures Series(before, nodes, 3, selected, i + 1, "cache", None) && Gated(nodes, dependency)
    ensures Hang(before, nodes, dependency) && LastAdded(before, nodes) == Some(CachePre(i, selected[i]))
    ensures Ids(nodes) == Ids(nodes0) + {CachePre(i, selected[i])}
  {
    var node := Node(CachePre(i, selected[i]), selected[i], "cache", dependency)
                .(fallbackFor := last, stopOnAcceptance := true);
    LookupOk(node);
    HangOne(before, nodes0, node, dependency);
    nodes := AddNext(before, nodes0, 3, selected, i, "cache", None, node);
  }

  lemma LookupsGrow(lookups: map<string, NodeId>, was: seq<PlanNode>, nodes: seq<PlanNode>, selected: seq<string>, i: nat)
    requires i < |selected| && LookupsFor(lookups, was, selected, i)
    requires Ids(nodes) == Ids(was) + {CachePre(i, selected[i])}
    ensures LookupsFor(lookups[selected[i] := CachePre(i, selected[i])], nodes, selected, i + 1)
  {
    TakeOne(selected, i);
    assert selected[..|selected|] == selected;
  }

  lemma TakeOne(capabilities: seq<string>, i: nat)
    requires i < |capabilities|
    ensures forall c :: c in capabilities[..i + 1] <==> c in capabilities[..i] || c == capabilities[i]
  {
    assert capabilities[..i + 1] == capabilities[..i] + [capabilities[i]];
  }

  lemma LookupOk(n: PlanNode)
    requires n.id.CachePre? && n.capability in PRE_CACHE && n.adapter == "cache"
    requires |n.dependencies| == 1 && Stage(n.dependencies[0]) < 3 && n.dependencies[0] != Normalize
    ensures NodeOk(n) && Written(n.capability)
  {
    CacheAvoidsHttp(n.capability);
  }

  /** A search result cache needs a search adapter in front of it. */
  function WithSearchAdapter(requested: seq<string>): seq<string> {
    if ("search_snippet_cache" in requested || "search_cache" in requested)
       && "search_engine_cache_adapter" !in requested && "alternate_search_cache_adapter" !in requested
    then requested + ["search_engine_cache_adapter"]
    else requested
  }

  function PermittedOnly(registry: Registry, request: Request, capabilities: seq<string>): (r: seq<string>)
    ensures forall c :: c in r <==> c in capabilities && Permitted(registry, request, c)
  {
    if capabilities == [] then []
    else
      var front, last := capabilities[..|capabilities| - 1], capabilities[|capabilities| - 1];
      assert capabilities == front + [last];
      PermittedOnly(registry, request, front) + if Permitted(registry, request, last) then [last] else []
  }

  /** The lookups of a request, in table order. */
  function Lookups(registry: Registry, request: Request, outputs: seq<string>): (r: seq<string>)
    ensures forall c :: c in r <==>
              && c in PRE_CACHE && c in WithSearchAdapter(Pick(CACHE_CAPABILITIES, outputs))
              && Permitted(registry, request, c)
  {
    PermittedOnly(registry, request, Pick(PRE_CACHE, WithSearchAdapter(Pick(CACHE_CAPABILITIES, outputs))))
  }

  method PreCacheSelection(registry: Registry, request: Request, outputs: seq<string>) returns (selected: seq<string>)
    ensures selected == Lookups(registry, request, outputs)
    ensures forall c :: c in selected ==> c in PRE_CACHE
  {
    var requested := Pick(PRE_CACHE, WithSearchAdapter(Pick(CACHE_CAPABILITIES, outputs)));
    selected := [];
    for i := 0 to |requested|
      invariant selected == PermittedOnly(registry, request, requested[..i])
    {
      assert requested[..i + 1][..i] == requested[..i];
      if Permitted(registry, request, requested[i]) {
        selected := selected + [requested[i]];
      }
    }
    assert requested[..|requested|] == requested;
  }

  lemma GrowIds(nodes: seq<PlanNode>, n: PlanNode)
    ensures Ids(nodes + [n]) == Ids(nodes) + {n.id}
  {
    assert forall m :: m in nodes + [n] <==> m in nodes || m == n;
  }

  /** One HTTP node behind the gate, with the requested operation; a fallback exactly if a lookup may do without it. */
  predicate HttpIs(outputs: seq<string>, family: Family, before: seq<PlanNode>, gate: NodeId, lookup: Option<NodeId>,
                   nodes: seq<PlanNode>)
  {
    && |nodes| == |before| + 1 && before <= nodes
    && var http := nodes[|before|];
       && http.id == Http && http.capability == HttpCapability(outputs) && http.dependencies == [gate] && http.group == None
       && http.fallbackFor == (if family == CacheOnly && "browser_cache" !in outputs && "rag_document_cache" !in outputs
                               then lookup else None)
       && (http.stopOnAcceptance <==> family in {ApiFamily, DocumentFamily, MediaFamily, ArchiveFamily})
       && http.retries == if HttpCapability(outputs) == "http_post" then 0 else 2
  }

  /** The HTTP node; a cache-only request needs it only if no lookup was accepted. */
  method HttpNode(outputs: seq<string>, family: Family, before: seq<PlanNode>, dependency: NodeId,
                  lookup: Option<NodeId>)
    returns (nodes: seq<PlanNode>)
    requires Built(before) && AllBelow(before, 4) && Stage(dependency) < 3 && dependency != Normalize
    requires Gated(before, dependency) && dependency in Ids(before)
    ensures Built(nodes) && AllBelow(nodes, 5) && before <= nodes && Http in Ids(nodes)
    ensures Gated(nodes, dependency) && nodes[|nodes| - 1].id == Http
    ensures HttpIs(outputs, family, before, dependency, lookup, nodes)
  {
    var capability := HttpCapability(outputs);
    var sourceRequired := "browser_cache" in outputs || "rag_document_cache" in outputs;
    var http := PlanNode(Http, capability, "http", [dependency], None,
                         if family == CacheOnly && !sourceRequired then lookup else None,
                         family in {ApiFamily, DocumentFamily, MediaFamily, ArchiveFamily},
                         capability == "http_post", if capability == "http_post" then 0 else 2);
    nodes := Add(before, http);
  }

  /** The last step of the acquisition, for which the later stages wait. */
  function Acquired(outputs: seq<string>): NodeId {
    if "form_submit" in outputs then AuthForm else if "csrf_token" in outputs then AuthCsrf else Http
  }

  /** Exactly the requested steps after the HTTP node. */
  predicate StepsAre(outputs: seq<string>, before: seq<PlanNode>, nodes: seq<PlanNode>) {
    && before <= nodes
    && Ids(nodes) == Ids(before) + (if "csrf_token" in outputs then {AuthCsrf} else {})
                     + (if "form_submit" in outputs then {AuthForm} else {})
  }

  /** The authentication steps that post-process the acquisition. */
  method AcquisitionNodes(outputs: seq<string>, before: seq<PlanNode>)
    returns (nodes: seq<PlanNode>, acquired: NodeId)
    requires Built(before) && AllBelow(before, 5) && Http in Ids(before)
    ensures Built(nodes) && AllBelow(nodes, 7) && before <= nodes
    ensures acquired in Ids(nodes) && 4 <= Stage(acquired) < 7
    ensures acquired == Acquired(outputs)
    ensures StepsAre(outputs, before, nodes)
  {
    nodes, acquired := before, Http;
    if "csrf_token" in outputs {
      nodes := TokenNode(nodes);
      acquired := AuthCsrf;
    }
    BelowWeakens(nodes, if acquired == Http then 5 else 6, 6);
    if "form_submit" in outputs {
      nodes := FormNode(nodes, acquired);
      acquired := AuthForm;
    }
    BelowWeakens(nodes, if acquired == AuthForm then 7 else 6, 7);
  }

  method TokenNode(before: seq<PlanNode>) returns (nodes: seq<PlanNode>)
    requires Built(before) && AllBelow(before, 5) && Http in Ids(before)
    ensures Built(nodes) && AllBelow(nodes, 6) && before <= nodes && Ids(nodes) == Ids(before) + {AuthCsrf}
  {
    var node := Node(AuthCsrf, "csrf_token", "auth", Http).(retries := 0);
    NameOk(node.capability);
    StepOk(node);
    nodes := Add(before, node);
  }

  method FormNode(before: seq<PlanNode>, acquired: NodeId) returns (nodes: seq<PlanNode>)
    requires Built(before) && AllBelow(before, 6) && 4 <= Stage(acquired) < 6 && acquired in Ids(before)
    ensures Built(nodes) && AllBelow(nodes, 7) && before <= nodes && Ids(nodes) == Ids(before) + {AuthForm}
  {
    var node := Node(AuthForm, "form_submit", "auth", acquired).(retries := 0, requiresApproval := true);
    NameOk(node.capability);
    StepOk(node);
    nodes := Add(before, node);
  }

  lemma StepOk(n: PlanNode)
    requires n.adapter == "auth" && !IsHttp(n.capability) && |n.dependencies| == 1
    requires 4 <= Stage(n.dependencies[0]) < Stage(n.id)
    requires n.id == AuthCsrf || (n.id == AuthForm && n.capability == "form_submit" && n.requiresApproval && n.retries == 0)
    ensures NodeOk(n)
  {
  }

  function ReaderSelection(outputs: seq<string>): (r: seq<string>)
    ensures r != [] && forall c :: c in r ==> c in READER_CAPABILITIES
  {
    var requested := Pick(READER_CAPABILITIES, outputs);
    if requested != [] then requested else ["clean_text", "main_article"]
  }

  /** Static readers, all in one parallel group, each the fallback of the one before it. */
  method ReaderNodes(outputs: seq<string>, before: seq<PlanNode>, dependency: NodeId)
    returns (nodes: seq<PlanNode>, terminal: NodeId)
    requires Built(before) && AllBelow(before, 9) && 2 < Stage(dependency) < 9 && dependency in Ids(before)
    ensures Built(nodes) && AllBelow(nodes, 10) && before <= nodes
    ensures Appends(before, nodes, ReaderSelection(outputs), "reader", Some("static-readers"))
    ensures Hang(before, nodes, dependency) && IsLast(before, nodes, terminal)
  {
    nodes, terminal := ReaderSeries(ReaderSelection(outputs), Some("static-readers"), before, dependency);
  }

  method ReaderSeries(selected: seq<string>, group: Option<string>, before: seq<PlanNode>, dependency: NodeId)
    returns (nodes: seq<PlanNode>, terminal: NodeId)
    requires Built(before) && AllBelow(before, 9) && 2 < Stage(dependency) < 9 && dependency in Ids(before)
    requires selected != [] && forall c :: c in selected ==> c in READER_CAPABILITIES
    ensures Built(nodes) && AllBelow(nodes, 10) && Appends(before, nodes, selected, "reader", group)
    ensures Hang(before, nodes, dependency) && IsLast(before, nodes, terminal)
  {
    nodes, terminal := before, dependency;
    StartSeries(before, 9, selected, "reader", group);
    for i := 0 to |selected|
      invariant Reading(before, nodes, selected, i, group, dependency) && (i > 0 ==> IsLast(before, nodes, terminal))
    {
      assert selected[i] in selected;
      nodes := AddReader(before, nodes, selected, i, group, dependency, if i > 0 then Some(terminal) else None);
      terminal := Reader(i, selected[i]);
    }
    EndSeries(before, nodes, 9, selected, "reader", group);
  }

  method AddReader(before: seq<PlanNode>, nodes0: seq<PlanNode>, selected: seq<string>, i: nat, group: Option<string>,
                   dependency: NodeId, previous: Option<NodeId>)
    returns (nodes: seq<PlanNode>)
    requires i < |selected| && Reading(before, nodes0, selected, i, group, dependency)
    requires selected[i] in READER_CAPABILITIES && 2 < Stage(dependency) < 9
    requires if i > 0 then previous.Some? && IsLast(before, nodes0, previous.value) else previous.None?
    ensures Reading(before, nodes, selected, i + 1, group, dependency) && IsLast(before, nodes, Reader(i, selected[i]))
  {
    var node := Node(Reader(i, selected[i]), selected[i], "reader", dependency)
                .(group := group, fallbackFor := previous, stopOnAcceptance := true);
    ReaderOk(node);
    HangOne(before, nodes0, node, dependency);
    nodes := AddNext(before, nodes0, 9, selected, i, "reader", group, node);
  }

  lemma HangOne(before: seq<PlanNode>, nodes: seq<PlanNode>, n: PlanNode, dependency: NodeId)
    requires before <= nodes && Hang(before, nodes, dependency)
    requires n.fallbackFor == LastAdded(before, nodes) && n.dependencies == [dependency]
    ensures Hang(before, nodes + [n], dependency) && LastAdded(before, nodes + [n]) == Some(n.id)
  {
    ChainOne(before, nodes, n);
  }

  /** The first `i` readers are in place. */
  predicate Reading(before: seq<PlanNode>, nodes: seq<PlanNode>, selected: seq<string>, i: nat, group: Option<string>,
                    dependency: NodeId)
    requires i <= |selected|
  {
    Series(before, nodes, 9, selected, i, "reader", group) && Hang(before, nodes, dependency) && dependency in Ids(nodes)
  }

  predicate IsLast(before: seq<PlanNode>, nodes: seq<PlanNode>, reader: NodeId) {
    reader in Ids(nodes) && Stage(reader) == 9 && LastAdded(before, nodes) == Some(reader)
  }

  /** Each appended node waits for the same node and is the fallback of the one before it. */
  predicate Hang(before: seq<PlanNode>, nodes: seq<PlanNode>, dependency: NodeId) {
    FallbackChain(before, nodes) && WaitFor(before, nodes, dependency)
  }

  lemma ReaderOk(n: PlanNode)
    requires n.id.Reader? && n.capability in READER_CAPABILITIES && n.adapter == "reader"
    requires |n.dependencies| == 1 && 2 < Stage(n.dependencies[0]) < 9
    ensures NodeOk(n) && Written(n.capability)
  {
    ReaderAvoidsHttp(n.capability);
  }

  /** The web branch: alternatives, readers and, where available, a browser. */
  method WebNodes(registry: Registry, request: Request, outputs: seq<string>, before: seq<PlanNode>, acquired: NodeId)
    returns (nodes: seq<PlanNode>, terminal: NodeId)
    requires Built(before) && AllBelow(before, 7) && 4 <= Stage(acquired) < 7 && acquired in Ids(before)
    ensures Extends(before, nodes, terminal) && terminal == Terminal(before, nodes, acquired)
    ensures WebBranch(registry, request, outputs, before, nodes, acquired)
  {
    var expanded, readerDependency := AlternativesNode(request, before, acquired);
    var read, reader := ReaderNodes(outputs, expanded, readerDependency);
    nodes, terminal := BrowserNode(registry, outputs, read, reader);
    WebIsShaped(registry, request, outputs, before, expanded, read, nodes, acquired);
  }

  lemma WebIsShaped(registry: Registry, request: Request, outputs: seq<string>, before: seq<PlanNode>,
                    expanded: seq<PlanNode>, read: seq<PlanNode>, nodes: seq<PlanNode>, acquired: NodeId)
    requires WebShape(registry, request, outputs, before, expanded, read, nodes, acquired)
    ensures WebBranch(registry, request, outputs, before, nodes, acquired)
    ensures before <= nodes && |before| < |nodes|
    ensures Terminal(before, nodes, acquired) == nodes[|nodes| - 1].id
  {
  }

  /**
   The web branch in three parts: the alternatives unless authenticated, the readers behind them or
   else behind the acquisition, and the browser, if installed, behind the last reader.
   */
  predicate WebShape(registry: Registry, request: Request, outputs: seq<string>, before: seq<PlanNode>,
                     expanded: seq<PlanNode>, read: seq<PlanNode>, nodes: seq<PlanNode>, acquired: NodeId)
  {
    && Expanded(request, before, expanded, acquired)
    && Appends(expanded, read, ReaderSelection(outputs), "reader", Some("static-readers"))
    && Hang(expanded, read, if request.authenticated then acquired else Alternatives)
    && BrowserShape(registry, outputs, read, nodes)
  }

  ghost predicate WebBranch(registry: Registry, request: Request, outputs: seq<string>, before: seq<PlanNode>,
                            nodes: seq<PlanNode>, acquired: NodeId)
  {
    exists expanded, read :: WebShape(registry, request, outputs, before, expanded, read, nodes, acquired)
  }

  predicate Expanded(request: Request, before: seq<PlanNode>, nodes: seq<PlanNode>, acquired: NodeId) {
    if request.authenticated then nodes == before
    else
      && |nodes| == |before| + 1 && before <= nodes
      && nodes[|before|].id == Alternatives && nodes[|before|].adapter == "variants" && nodes[|before|].dependencies == [acquired]
  }

  method AlternativesNode(request: Request, before: seq<PlanNode>, acquired: NodeId)
    returns (nodes: seq<PlanNode>, dependency: NodeId)
    requires Built(before) && AllBelow(before, 7) && 4 <= Stage(acquired) < 7 && acquired in Ids(before)
    ensures Built(nodes) && AllBelow(nodes, 9) && 2 < Stage(dependency) < 9 && dependency in Ids(nodes)
    ensures dependency == if request.authenticated then acquired else Alternatives
    ensures Expanded(request, before, nodes, acquired)
  {
    NameOk("candidate_url_expansion");
    nodes, dependency := before, acquired;
    if !request.authenticated {
      nodes := Add(nodes, Node(Alternatives, "candidate_url_expansion", "variants", acquired));
      dependency := Alternatives;
    }
  }

  /** The engine the browser runs: the first one requested, or the default. */
  function Engine(outputs: seq<string>): (r: string)
    ensures r in BROWSER_ENGINES
    ensures r in outputs || (r == "playwright" && forall c :: c in BROWSER_ENGINES ==> c !in outputs)
  {
    var engines := Pick(BROWSER_ENGINES, outputs);
    if engines != [] then assert engines[0] in engines; engines[0] else "playwright"
  }

  /** One browser node behind the last reader if a browser is installed; a fallback unless one was asked for. */
  predicate BrowserShape(registry: Registry, outputs: seq<string>, before: seq<PlanNode>, nodes: seq<PlanNode>) {
    if "playwright" !in registry.available || before == [] then nodes == before
    else
      && |nodes| == |before| + 1 && before <= nodes
      && var b := nodes[|before|];
         var reader := before[|before| - 1].id;
         && b.id == Browser && b.capability == Engine(outputs) && b.adapter == "browser" && b.dependencies == [reader]
         && b.fallbackFor == if Pick(BROWSER_ENGINES + BROWSER_EMBEDDED, outputs) != [] then None else Some(reader)
  }

  /** The browser, where it is installed: a fallback of the readers unless one was asked for. */
  method BrowserNode(registry: Registry, outputs: seq<string>, before: seq<PlanNode>, reader: NodeId)
    returns (nodes: seq<PlanNode>, terminal: NodeId)
    requires Built(before) && AllBelow(before, 10) && reader in Ids(before) && Stage(reader) == 9
    requires before != [] && before[|before| - 1].id == reader
    ensures Extends(before, nodes, terminal) && nodes != []
    ensures terminal == if "playwright" in registry.available then Browser else reader
    ensures BrowserShape(registry, outputs, before, nodes) && nodes[|nodes| - 1].id == terminal
  {
    nodes, terminal := before, reader;
    if "playwright" in registry.available {
      var fallback := if Pick(BROWSER_ENGINES + BROWSER_EMBEDDED, outputs) != [] then None else Some(reader);
      var node := Node(Browser, Engine(outputs), "browser", reader).(fallbackFor := fallback, stopOnAcceptance := true);
      BrowserOk(node);
      nodes := Add(nodes, node);
      terminal := Browser;
    }
  }

  lemma BrowserOk(n: PlanNode)
    requires n.id == Browser && n.capability in BROWSER_ENGINES && n.adapter == "browser"
    requires |n.dependencies| == 1 && Stage(n.dependencies[0]) == 9
    ensures NodeOk(n) && Written(n.capability)
  {
    SessionAvoidsHttp(n.capability);
  }

  /** What later stages wait for: the last node that was added, or else the acquisition. */
  function Terminal(before: seq<PlanNode>, nodes: seq<PlanNode>, acquired: NodeId): NodeId {
    if |nodes| <= |before| then acquired else nodes[|nodes| - 1].id
  }

  /** One extractor per selected capability, all in one parallel group and all behind the acquisition. */
  method ExtractorNodes(capabilities: seq<string>, documents: bool, before: seq<PlanNode>, acquired: NodeId)
    returns (nodes: seq<PlanNode>, terminal: NodeId)
    requires Built(before) && AllBelow(before, 7) && 4 <= Stage(acquired) < 7 && acquired in Ids(before)
    requires forall c :: c in capabilities ==> c in (if documents then DOCUMENT_CAPABILITIES else MEDIA_CAPABILITIES)
    ensures Extends(before, nodes, terminal)
    ensures documents ==> Appends(before, nodes, capabilities, "documents", Some("document-extractors"))
    ensures !documents ==> Appends(before, nodes, capabilities, "media", Some("media-extractors"))
    ensures WaitFor(before, nodes, acquired) && terminal == Terminal(before, nodes, acquired)
  {
    var adapter := if documents then "documents" else "media";
    var group := Some(if documents then "document-extractors" else "media-extractors");
    var stage := if documents then 11 else 12;
    BelowWeakens(before, 7, stage);
    nodes := ExtractorSeries(capabilities, documents, before, acquired, stage, adapter, group);
    terminal := Terminal(before, nodes, acquired);
    BelowWeakens(nodes, stage + 1, 15);
    IdsGrow(before, nodes);
    LastIsLate(before, nodes, acquired, stage);
  }

  lemma LastIsLate(before: seq<PlanNode>, nodes: seq<PlanNode>, acquired: NodeId, stage: nat)
    requires before <= nodes && acquired in Ids(nodes) && 4 <= Stage(acquired) < 7 && 4 <= stage < 15
    requires OfStage(before, nodes, stage, acquired)
    ensures Terminal(before, nodes, acquired) in Ids(nodes) && 4 <= Stage(Terminal(before, nodes, acquired)) < 15
  {
    if |before| < |nodes| {
      assert nodes[|nodes| - 1] in nodes;
    }
  }

  method ExtractorSeries(capabilities: seq<string>, documents: bool, before: seq<PlanNode>, acquired: NodeId, stage: nat,
                         adapter: string, group: Option<string>)
    returns (nodes: seq<PlanNode>)
    requires Built(before) && 4 <= Stage(acquired) < 7 && acquired in Ids(before)
    requires stage == (if documents then 11 else 12) && AllBelow(before, stage)
    requires adapter == if documents then "documents" else "media"
    requires forall c :: c in capabilities ==> c in (if documents then DOCUMENT_CAPABILITIES else MEDIA_CAPABILITIES)
    ensures Built(nodes) && AllBelow(nodes, stage + 1) && Appends(before, nodes, capabilities, adapter, group)
    ensures OfStage(before, nodes, stage, acquired)
  {
    nodes := before;
    StartSeries(before, stage, capabilities, adapter, group);
    for i := 0 to |capabilities|
      invariant Extracting(before, nodes, stage, capabilities, i, adapter, group, acquired)
    {
      assert capabilities[i] in capabilities;
      var id := if documents then Document(i, capabilities[i]) else Media(i, capabilities[i]);
      var node := Node(id, capabilities[i], adapter, acquired).(group := group, stopOnAcceptance := true);
      ExtractorOk(node);
      nodes := AddExtractor(before, nodes, stage, capabilities, i, adapter, group, acquired, node);
    }
    EndSeries(before, nodes, stage, capabilities, adapter, group);
  }

  /** The appended nodes are of one stage and wait for the acquisition. */
  predicate OfStage(before: seq<PlanNode>, nodes: seq<PlanNode>, stage: nat, acquired: NodeId) {
    WaitFor(before, nodes, acquired) && forall i :: |before| <= i < |nodes| ==> Stage(nodes[i].id) == stage
  }

  /** The first `i` extractors are in place. */
  predicate Extracting(before: seq<PlanNode>, nodes: seq<PlanNode>, stage: nat, capabilities: seq<string>, i: nat,
                       adapter: string, group: Option<string>, acquired: NodeId)
    requires i <= |capabilities|
  {
    Series(before, nodes, stage, capabilities, i, adapter, group) && acquired in Ids(nodes) && OfStage(before, nodes, stage, acquired)
  }

  method AddExtractor(before: seq<PlanNode>, nodes0: seq<PlanNode>, stage: nat, capabilities: seq<string>, i: nat,
                      adapter: string, group: Option<string>, acquired: NodeId, node: PlanNode)
    returns (nodes: seq<PlanNode>)
    requires i < |capabilities| && Extracting(before, nodes0, stage, capabilities, i, adapter, group, acquired)
    requires NodeOk(node) && Written(node.capability) && Stage(node.id) == stage && Index(node.id) == i
    requires IsFor(node, capabilities[i], adapter, group) && node.dependencies == [acquired]
    ensures Extracting(before, nodes, stage, capabilities, i + 1, adapter, group, acquired)
  {
    nodes := AddNext(before, nodes0, stage, capabilities, i, adapter, group, node);
  }

  lemma ExtractorOk(n: PlanNode)
    requires n.id.Document? || n.id.Media?
    requires (n.capability in DOCUMENT_CAPABILITIES || n.capability in MEDIA_CAPABILITIES) && (n.adapter == "documents" || n.adapter == "media")
    requires |n.dependencies| == 1 && 4 <= Stage(n.dependencies[0]) < 7
    ensures NodeOk(n) && Written(n.capability)
  {
    ExtractorAvoidsHttp(n.capability);
  }

  function DocumentSelection(suffix: string, outputs: seq<string>): (r: seq<string>)
    ensures forall c :: c in r ==> c in DOCUMENT_CAPABILITIES
  {
    var requested := Pick(DOCUMENT_CAPABILITIES[..10] + DOCUMENT_CAPABILITIES[11..], outputs);
    if requested != [] then requested else [DocumentCapability(suffix)]
  }

  function MediaSelection(suffix: string, outputs: seq<string>): (r: seq<string>)
    ensures forall c :: c in r ==> c in MEDIA_CAPABILITIES
  {
    var requested := Pick(MEDIA_CAPABILITIES, outputs);
    if requested != [] then requested else [MediaCapability(suffix)]
  }

  /** The API to call: the requested one, or else the one the target is known to have, or else by its suffix. */
  function ApiCapability(request: Request, outputs: seq<string>): (r: string)
    ensures Pick(API_CAPABILITIES, outputs) != [] ==> r in API_CAPABILITIES && r in outputs
    ensures Pick(API_CAPABILITIES, outputs) == [] && request.namedApi.Some? ==> r == request.namedApi.value
  {
    var requested := Pick(API_CAPABILITIES, outputs);
    if requested != [] then assert requested[0] in requested; requested[0]
    else if request.namedApi.Some? then request.namedApi.value
    else if request.suffix == ".xml" then "xml_endpoint"
    else "json_endpoint"
  }

  /** The structured API node, for the one requested or detected API. */
  method ApiNode(request: Request, outputs: seq<string>, before: seq<PlanNode>, acquired: NodeId)
    returns (r: Result<seq<PlanNode>, PlanError>)
    requires Built(before) && AllBelow(before, 7) && 4 <= Stage(acquired) < 7 && acquired in Ids(before)
    requires request.namedApi.Some? ==> request.namedApi.value in API_CAPABILITIES
    ensures r.Err? <==> |Pick(API_CAPABILITIES, outputs)| > 1
    ensures r.Err? ==> r.error == ApiConflict
    ensures r.Ok? ==> Extends(before, r.value, Structured) && Terminal(before, r.value, acquired) == Structured
    ensures r.Ok? ==> AddsOne(before, r.value, Structured, ApiCapability(request, outputs), "api", acquired)
  {
    var requested := Pick(API_CAPABILITIES, outputs);
    if |requested| > 1 {
      return Err(ApiConflict);
    }
    var node := Node(Structured, ApiCapability(request, outputs), "api", acquired).(stopOnAcceptance := true);
    ApiOk(node, request, outputs);
    var nodes := SingleNode(before, node);
    return Ok(nodes);
  }

  lemma ApiOk(n: PlanNode, request: Request, outputs: seq<string>)
    requires n.id == Structured && n.capability == ApiCapability(request, outputs) && n.adapter == "api"
    requires |n.dependencies| == 1 && 4 <= Stage(n.dependencies[0]) < 7
    requires request.namedApi.Some? ==> request.namedApi.value in API_CAPABILITIES
    ensures NodeOk(n) && Written(n.capability)
  {
    assert "xml_endpoint" in API_CAPABILITIES && "json_endpoint" in API_CAPABILITIES;
    ApiAvoidsHttp(n.capability);
  }

  /** Exactly one node was added. */
  predicate AddsOne(before: seq<PlanNode>, nodes: seq<PlanNode>, id: NodeId, capability: string, adapter: string,
                    dependency: NodeId)
  {
    && |nodes| == |before| + 1 && before <= nodes && IsFor(nodes[|before|], capability, adapter, None)
    && nodes[|before|].id == id && nodes[|before|].dependencies == [dependency]
  }

  /** A family with one node of its own. */
  method SingleNode(before: seq<PlanNode>, node: PlanNode) returns (nodes: seq<PlanNode>)
    requires Built(before) && AllBelow(before, 7) && Fits(before, node) && 7 <= Stage(node.id) < 15
    ensures Extends(before, nodes, node.id) && nodes == before + [node]
  {
    nodes := Add(before, node);
  }

  method CrawlNode(before: seq<PlanNode>, acquired: NodeId) returns (nodes: seq<PlanNode>)
    requires Built(before) && AllBelow(before, 7) && 4 <= Stage(acquired) < 7 && acquired in Ids(before)
    ensures Extends(before, nodes, Crawl) && Terminal(before, nodes, acquired) == Crawl
    ensures AddsOne(before, nodes, Crawl, "depth_limited_crawl", "discovery", acquired)
  {
    NameOk("depth_limited_crawl");
    nodes := SingleNode(before, Node(Crawl, "depth_limited_crawl", "discovery", acquired).(stopOnAcceptance := true));
  }

  method ArchiveNode(before: seq<PlanNode>, acquired: NodeId) returns (nodes: seq<PlanNode>)
    requires Built(before) && AllBelow(before, 7) && 4 <= Stage(acquired) < 7 && acquired in Ids(before)
    ensures Extends(before, nodes, Archive) && Terminal(before, nodes, acquired) == Archive
    ensures AddsOne(before, nodes, Archive, "zip_archive", "archive", acquired)
  {
    NameOk("zip_archive");
    nodes := SingleNode(before, Node(Archive, "zip_archive", "archive", acquired).(stopOnAcceptance := true));
  }

  /** The family's own nodes after the acquisition. */
  method FamilyNodes(registry: Registry, request: Request, outputs: seq<string>, family: Family,
                     before: seq<PlanNode>, acquired: NodeId)
    returns (r: Result<(seq<PlanNode>, NodeId), PlanError>)
    requires Built(before) && AllBelow(before, 7) && acquired in Ids(before) && 4 <= Stage(acquired) < 7
    requires request.namedApi.Some? ==> request.namedApi.value in API_CAPABILITIES
    ensures r.Ok? ==> Extends(before, r.value.0, r.value.1) && r.value.1 == Terminal(before, r.value.0, acquired)
    ensures r.Ok? ==> FamilyShape(registry, request, outputs, family, before, r.value.0, acquired)
    ensures r.Err? <==> ApiClash(request, outputs, family)
    ensures r.Err? ==> r.error == ApiConflict
  {
    if request.intent == "crawl" {
      var crawled := CrawlNode(before, acquired);
      return Ok((crawled, Crawl));
    }
    if family == ApiFamily {
      var api := ApiNode(request, outputs, before, acquired);
      return if api.Err? then Err(api.error) else Ok((api.value, Structured));
    }
    var nodes, terminal := ContentNodes(registry, request, outputs, family, before, acquired);
    return Ok((nodes, terminal));
  }

  /** The nodes that a request's family contributes, all of them behind the acquisition. */
  ghost predicate FamilyShape(registry: Registry, request: Request, outputs: seq<string>, family: Family,
                              before: seq<PlanNode>, nodes: seq<PlanNode>, acquired: NodeId)
  {
    if request.intent == "crawl" then AddsOne(before, nodes, Crawl, "depth_limited_crawl", "discovery", acquired)
    else if family == ApiFamily then AddsOne(before, nodes, Structured, ApiCapability(request, outputs), "api", acquired)
    else ContentShape(registry, request, outputs, family, before, nodes, acquired)
  }

  ghost predicate ContentShape(registry: Registry, request: Request, outputs: seq<string>, family: Family,
                               before: seq<PlanNode>, nodes: seq<PlanNode>, acquired: NodeId)
  {
    match family
    case Web => if HttpCapability(outputs) == "http_head" then nodes == before
                else WebBranch(registry, request, outputs, before, nodes, acquired)
    case DocumentFamily =>
      && Appends(before, nodes, DocumentSelection(request.suffix, outputs), "documents", Some("document-extractors"))
      && WaitFor(before, nodes, acquired)
    case MediaFamily =>
      && Appends(before, nodes, MediaSelection(request.suffix, outputs), "media", Some("media-extractors"))
      && WaitFor(before, nodes, acquired)
    case ArchiveFamily => AddsOne(before, nodes, Archive, "zip_archive", "archive", acquired)
    case _ => nodes == before
  }

  /** A stage after the acquisition: nodes of its own, and the one that later stages wait for. */
  predicate Extends(before: seq<PlanNode>, nodes: seq<PlanNode>, terminal: NodeId) {
    Built(nodes) && AllBelow(nodes, 15) && before <= nodes && terminal in Ids(nodes) && 4 <= Stage(terminal) < 15
  }

  /** The families that turn the acquired bytes into content. */
  method ContentNodes(registry: Registry, request: Request, outputs: seq<string>, family: Family,
                      before: seq<PlanNode>, acquired: NodeId)
    returns (nodes: seq<PlanNode>, terminal: NodeId)
    requires Built(before) && AllBelow(before, 7) && acquired in Ids(before) && 4 <= Stage(acquired) < 7
    ensures Extends(before, nodes, terminal) && terminal == Terminal(before, nodes, acquired)
    ensures family != ApiFamily ==> ContentShape(registry, request, outputs, family, before, nodes, acquired)
  {
    BelowWeakens(before, 7, 15);
    nodes, terminal := before, acquired;
    match family {
      case Web =>
        if HttpCapability(outputs) != "http_head" {
          nodes, terminal := WebNodes(registry, request, outputs, before, acquired);
        }
      case DocumentFamily =>
        nodes, terminal := ExtractorNodes(DocumentSelection(request.suffix, outputs), true, before, acquired);
      case MediaFamily =>
        nodes, terminal := ExtractorNodes(MediaSelection(request.suffix, outputs), false, before, acquired);
      case ArchiveFamily =>
        nodes := ArchiveNode(before, acquired);
        terminal := Archive;
      case _ =>
    }
  }

  /** The identity belongs to a node that runs one of the capabilities on the adapter. */
  predicate Produces(nodes: seq<PlanNode>, id: NodeId, adapter: string, capabilities: seq<string>) {
    exists n :: n in nodes && n.id == id && n.adapter == adapter && n.capability in capabilities
  }

  /** The last node that produces what a cache strategy stores. */
  method FindProducer(nodes: seq<PlanNode>, adapter: string, capabilities: seq<string>) returns (r: Option<NodeId>)
    requires Built(nodes) && adapter != "core" && adapter != "auth"
    ensures r.Some? ==> Stage(r.value) > 2 && Produces(nodes, r.value, adapter, capabilities)
    ensures r.None? ==> forall n :: n in nodes ==> n.adapter != adapter || n.capability !in capabilities
  {
    var i := |nodes|;
    while i > 0
      invariant 0 <= i <= |nodes|
      invariant forall j :: i <= j < |nodes| ==> nodes[j].adapter != adapter || nodes[j].capability !in capabilities
    {
      i := i - 1;
      if nodes[i].adapter == adapter && nodes[i].capability in capabilities {
        assert nodes[i] in nodes;
        return Some(nodes[i].id);
      }
    }
    return None;
  }

  predicate AddsOnly(before: seq<PlanNode>, nodes: seq<PlanNode>, id: NodeId, capability: string, adapter: string) {
    |nodes| == |before| + 1 && before <= nodes && nodes[|before|].id == id && IsFor(nodes[|before|], capability, adapter, None)
  }

  /** The producer of the text that `rag_document_cache` stores. */
  method RagProducerNode(family: Family, before: seq<PlanNode>, acquired: NodeId, terminal: NodeId)
    returns (nodes: seq<PlanNode>, producer: NodeId)
    requires Built(before) && AllBelow(before, 15)
    requires 4 <= Stage(acquired) < 7 && 4 <= Stage(terminal) < 15 && {acquired, terminal} <= Ids(before)
    ensures Built(nodes) && AllBelow(nodes, 16) && before <= nodes
    ensures Stage(producer) > 2 && Produces(nodes, producer, "reader", ["clean_text"])
    ensures nodes == before || AddsOnly(before, nodes, RagProducer, "clean_text", "reader")
  {
    var found := FindProducer(before, "reader", ["clean_text"]);
    if found.Some? {
      nodes, producer := before, found.value;
    } else {
      nodes := TextProducer(before, if family == DocumentFamily then terminal else acquired);
      producer := RagProducer;
    }
  }

  method TextProducer(before: seq<PlanNode>, dependency: NodeId) returns (nodes: seq<PlanNode>)
    requires Built(before) && AllBelow(before, 15) && 4 <= Stage(dependency) < 15 && dependency in Ids(before)
    ensures Built(nodes) && AllBelow(nodes, 16) && before <= nodes
    ensures Produces(nodes, RagProducer, "reader", ["clean_text"])
    ensures AddsOnly(before, nodes, RagProducer, "clean_text", "reader")
  {
    NameOk("clean_text");
    var node := Node(RagProducer, "clean_text", "reader", dependency);
    nodes := Add(before, node);
    assert node in nodes;
  }

  /** The producer of the rendering that `browser_cache` stores. */
  method RenderProducerNode(registry: Registry, request: Request, before: seq<PlanNode>, acquired: NodeId)
    returns (r: Result<(seq<PlanNode>, NodeId), PlanError>)
    requires Built(before) && AllBelow(before, 16) && 4 <= Stage(acquired) < 7 && acquired in Ids(before)
    ensures r.Ok? ==> && Built(r.value.0) && AllBelow(r.value.0, 17) && before <= r.value.0
                      && Stage(r.value.1) > 2 && Produces(r.value.0, r.value.1, "browser", BROWSER_ENGINES)
                      && (r.value.0 == before || AddsOnly(before, r.value.0, RenderProducer, "playwright", "browser"))
    ensures r.Err? ==> r.error == RenderNeedsPlaywright && !Permitted(registry, request, "playwright")
  {
    var found := FindProducer(before, "browser", BROWSER_ENGINES);
    if found.Some? {
      BelowWeakens(before, 16, 17);
      return Ok((before, found.value));
    }
    if !Permitted(registry, request, "playwright") {
      return Err(RenderNeedsPlaywright);
    }
    var nodes := Renderer(before, acquired);
    return Ok((nodes, RenderProducer));
  }

  method Renderer(before: seq<PlanNode>, acquired: NodeId) returns (nodes: seq<PlanNode>)
    requires Built(before) && AllBelow(before, 16) && 4 <= Stage(acquired) < 7 && acquired in Ids(before)
    ensures Built(nodes) && AllBelow(nodes, 17) && before <= nodes
    ensures Produces(nodes, RenderProducer, "browser", BROWSER_ENGINES)
    ensures AddsOnly(before, nodes, RenderProducer, "playwright", "browser")
  {
    NameOk("playwright");
    var node := Node(RenderProducer, "playwright", "browser", acquired);
    nodes := Add(before, node);
    assert node in nodes && node.capability in BROWSER_ENGINES;
  }

  predicate ApiClash(request: Request, outputs: seq<string>, family: Family) {
    request.intent != "crawl" && family == ApiFamily && |Pick(API_CAPABILITIES, outputs)| > 1
  }

  /** The plan must have a node for it, unless an adapter covers it. */
  predicate Schedulable(registry: Registry, capability: string) {
    registry.Resolve(capability).Some? && registry.Resolve(capability).value in registry.schedulable
  }

  /** What has to be so of a request for planning to fail as it does. */
  ghost predicate Reason(registry: Registry, request: Request, outputs: seq<string>, family: Family, bare: Family, error: PlanError) {
    match error
    case SessionConflict => |Pick(SESSIONS, outputs)| > 1
    case ApiConflict => ApiClash(request, outputs, family)
    case RagNeedsCleanText => "rag_document_cache" in outputs && !Permitted(registry, request, "clean_text")
    case RenderTarget => "browser_cache" in outputs && (IsBytes(family) || IsBytes(bare))
    case RenderNeedsPlaywright => "browser_cache" in outputs && !Permitted(registry, request, "playwright")
    case HttpDenied => !Permitted(registry, request, HttpCapability(outputs))
    case MissingDependency => exists c :: Written(c) && !Permitted(registry, request, c)
    case UnknownCapability => exists c :: Written(c) && registry.Resolve(c).None?
    case OutputsDenied => exists c :: c in outputs && Schedulable(registry, c) && !Permitted(registry, request, registry.Resolve(c).value)
    case OutputsUnscheduled => exists c :: c in outputs && Schedulable(registry, c)
  }

  predicate NothingToSchedule(registry: Registry, outputs: seq<string>) {
    forall c :: c in outputs ==> !Schedulable(registry, c)
  }

  /** A request without allow and deny lists, in a registry that knows the planner's capabilities. */
  ghost predicate Open(registry: Registry, request: Request) {
    && request.allow == {} && request.deny == {}
    && (forall c :: Written(c) ==> registry.Resolve(c).Some?)
    && (forall a :: a in registry.aliases ==> registry.aliases[a] in registry.ids)
  }

  /**
   Such a request is refused only for a conflict of its own outputs or target, or for an output that
   would have to be scheduled; without such outputs it gets its plan.
   */
  lemma OpenRequest(registry: Registry, request: Request, outputs: seq<string>, family: Family, bare: Family, error: PlanError)
    requires Open(registry, request) && Reason(registry, request, outputs, family, bare, error)
    ensures error in {SessionConflict, ApiConflict, RenderTarget, OutputsUnscheduled}
    ensures error == OutputsUnscheduled ==> exists c :: c in outputs && Schedulable(registry, c)
  {
    HttpIsWritten(outputs);
    assert "clean_text" in NAMED && "playwright" in NAMED;
    NameOk("clean_text");
    NameOk("playwright");
    forall c | Written(c) ensures Permitted(registry, request, c) {}
  }

  lemma HttpIsWritten(outputs: seq<string>)
    ensures Written(HttpCapability(outputs))
  {
  }

  /** Document, media and archive bytes cannot be rendered. */
  predicate IsBytes(family: Family) {
    family in {DocumentFamily, MediaFamily, ArchiveFamily}
  }

  lemma IdsGrow(before: seq<PlanNode>, nodes: seq<PlanNode>)
    requires before <= nodes
    ensures Ids(before) <= Ids(nodes)
  {
    assert forall n :: n in before ==> n in nodes;
  }

  lemma ProducesStill(small: seq<PlanNode>, big: seq<PlanNode>, id: NodeId, adapter: string, capabilities: seq<string>)
    requires small <= big && Produces(small, id, adapter, capabilities)
    ensures Produces(big, id, adapter, capabilities)
  {
    var n :| n in small && n.id == id && n.adapter == adapter && n.capability in capabilities;
    assert n in big;
  }

  /**
   Producers that the requested cache strategies need and the plan does not have yet.  `bare` is
   the family of the target without any requested output.
   */
  method ProducerNodes(registry: Registry, request: Request, outputs: seq<string>, family: Family, bare: Family,
                       before: seq<PlanNode>, acquired: NodeId, terminal: NodeId)
    returns (r: Result<(seq<PlanNode>, Option<NodeId>, Option<NodeId>), PlanError>)
    requires Built(before) && AllBelow(before, 15)
    requires 4 <= Stage(acquired) < 7 && 4 <= Stage(terminal) < 15 && {acquired, terminal} <= Ids(before)
    ensures r.Ok? ==> && Built(r.value.0) && AllBelow(r.value.0, 17) && before <= r.value.0
                      && (r.value.1.Some? ==>
                            Stage(r.value.1.value) > 2 && Produces(r.value.0, r.value.1.value, "reader", ["clean_text"]))
                      && (r.value.2.Some? ==>
                            Stage(r.value.2.value) > 2 && Produces(r.value.0, r.value.2.value, "browser", BROWSER_ENGINES))
    ensures r.Err? ==> r.error in {RagNeedsCleanText, RenderTarget, RenderNeedsPlaywright}
                       && Reason(registry, request, outputs, family, bare, r.error)
    ensures r.Ok? ==> !Reason(registry, request, outputs, family, bare, RagNeedsCleanText)
                      && !Reason(registry, request, outputs, family, bare, RenderTarget)
    ensures r.Ok? ==> ("rag_document_cache" in outputs <==> r.value.1.Some?)
    ensures r.Ok? ==> ("browser_cache" in outputs <==> r.value.2.Some?)
    ensures r.Ok? ==> ProducersAre(outputs, before, r.value.0)
  {
    var nodes, text := before, None;
    if "rag_document_cache" in outputs {
      if !Permitted(registry, request, "clean_text") {
        return Err(RagNeedsCleanText);
      }
      var producer;
      nodes, producer := RagProducerNode(family, nodes, acquired, terminal);
      text := Some(producer);
    }
    BelowWeakens(nodes, if text.Some? then 16 else 15, 16);
    IdsGrow(before, nodes);
    var rendered := RenderingNode(registry, request, outputs, family, bare, nodes, acquired);
    if rendered.Err? {
      return Err(rendered.error);
    }
    if text.Some? {
      ProducesStill(nodes, rendered.value.0, text.value, "reader", ["clean_text"]);
    }
    assert TextIs(outputs, before, nodes) && RenderingIs(outputs, nodes, rendered.value.0);
    return Ok((rendered.value.0, text, rendered.value.1));
  }

  /** At most the producer of text, and only for the cache that stores it. */
  predicate TextIs(outputs: seq<string>, before: seq<PlanNode>, nodes: seq<PlanNode>) {
    nodes == before || ("rag_document_cache" in outputs && AddsOnly(before, nodes, RagProducer, "clean_text", "reader"))
  }

  predicate RenderingIs(outputs: seq<string>, before: seq<PlanNode>, nodes: seq<PlanNode>) {
    nodes == before || ("browser_cache" in outputs && AddsOnly(before, nodes, RenderProducer, "playwright", "browser"))
  }

  ghost predicate ProducersAre(outputs: seq<string>, before: seq<PlanNode>, nodes: seq<PlanNode>) {
    exists between :: TextIs(outputs, before, between) && RenderingIs(outputs, between, nodes)
  }

  /** The rendering, where `browser_cache` is requested. */
  method RenderingNode(registry: Registry, request: Request, outputs: seq<string>, family: Family, bare: Family,
                       before: seq<PlanNode>, acquired: NodeId)
    returns (r: Result<(seq<PlanNode>, Option<NodeId>), PlanError>)
    requires Built(before) && AllBelow(before, 16) && 4 <= Stage(acquired) < 7 && acquired in Ids(before)
    ensures r.Ok? ==> && Built(r.value.0) && AllBelow(r.value.0, 17) && before <= r.value.0
                      && (r.value.1.Some? ==>
                            Stage(r.value.1.value) > 2 && Produces(r.value.0, r.value.1.value, "browser", BROWSER_ENGINES))
    ensures r.Err? ==> r.error in {RenderTarget, RenderNeedsPlaywright}
                       && Reason(registry, request, outputs, family, bare, r.error)
    ensures r.Ok? ==> !Reason(registry, request, outputs, family, bare, RenderTarget)
    ensures r.Ok? ==> ("browser_cache" in outputs <==> r.value.1.Some?)
    ensures r.Ok? ==> RenderingIs(outputs, before, r.value.0)
  {
    if "browser_cache" !in outputs {
      BelowWeakens(before, 16, 17);
      return Ok((before, None));
    }
    if IsBytes(family) || IsBytes(bare) {
      return Err(RenderTarget);
    }
    var rendered := RenderProducerNode(registry, request, before, acquired);
    return if rendered.Err? then Err(rendered.error) else Ok((rendered.value.0, Some(rendered.value.1)));
  }

  /** The cache strategy `capability` waits for the node that produces what it stores. */
  predicate Stores(before: seq<PlanNode>, nodes: seq<PlanNode>, capability: string, producer: NodeId) {
    forall i :: |before| <= i < |nodes| && nodes[i].capability == capability ==> nodes[i].dependencies == [producer]
  }

  /** Cache strategies that run after the acquisition, all in one parallel group. */
  method PostCacheNodes(outputs: seq<string>, before: seq<PlanNode>, text: Option<NodeId>, rendering: Option<NodeId>,
                        lookups: map<string, NodeId>, terminal: NodeId)
    returns (nodes: seq<PlanNode>)
    requires Built(before) && AllBelow(before, 17) && 4 <= Stage(terminal) < 15 && terminal in Ids(before)
    requires text.Some? ==> Stage(text.value) > 2 && Produces(before, text.value, "reader", ["clean_text"])
    requires rendering.Some? ==> Stage(rendering.value) > 2 && Produces(before, rendering.value, "browser", BROWSER_ENGINES)
    requires forall c :: c in lookups ==> Stage(lookups[c]) == 3 && lookups[c] in Ids(before)
    ensures Built(nodes) && AllBelow(nodes, 18) && before <= nodes
    ensures Appends(before, nodes, Pick(POST_CACHE, outputs), "cache", Some("cache-strategies"))
    ensures text.Some? ==> Stores(before, nodes, "rag_document_cache", text.value)
    ensures rendering.Some? ==> Stores(before, nodes, "browser_cache", rendering.value)
    ensures Searches(before, nodes, lookups)
    ensures forall i :: |before| <= i < |nodes| ==>
              || nodes[i].dependencies == [terminal] || nodes[i].capability in ["rag_document_cache", "browser_cache"]
              || nodes[i].capability in SEARCH_CACHES
  {
    var selected := Pick(POST_CACHE, outputs);
    var group := Some("cache-strategies");
    var producers := Producers(text, rendering, lookups, terminal);
    nodes := before;
    StartSeries(before, 17, selected, "cache", group);
    for i := 0 to |selected|
      invariant Series(before, nodes, 17, selected, i, "cache", group) && Waits(before, nodes, producers)
      invariant producers.Valid(Ids(nodes))
    {
      assert selected[i] in selected;
      nodes := AddStrategy(before, nodes, selected, i, group, producers);
    }
    EndSeries(before, nodes, 17, selected, "cache", group);
    WaitingStores(before, nodes, producers);
  }

  /** What the cache strategies can wait for. */
  datatype Producers = Producers(text: Option<NodeId>, rendering: Option<NodeId>, lookups: map<string, NodeId>,
                                 terminal: NodeId)
  {
    predicate Valid(ids: set<NodeId>) {
      && 2 < Stage(terminal) < 17 && terminal in ids
      && (text.Some? ==> 2 < Stage(text.value) < 17 && text.value in ids)
      && (rendering.Some? ==> 2 < Stage(rendering.value) < 17 && rendering.value in ids)
      && (forall c :: c in lookups ==> 2 < Stage(lookups[c]) < 17 && lookups[c] in ids)
    }
  }

  /** Every appended strategy waits for its producer. */
  predicate Waits(before: seq<PlanNode>, nodes: seq<PlanNode>, producers: Producers) {
    forall i :: |before| <= i < |nodes| ==> nodes[i].dependencies == [PostDependency(nodes[i].capability, producers)]
  }

  const SEARCH_CACHES := ["search_snippet_cache", "search_cache"]

  /** A search cache waits for its search adapter, or for the alternative one, if there is one. */
  predicate Searches(before: seq<PlanNode>, nodes: seq<PlanNode>, lookups: map<string, NodeId>) {
    forall i :: |before| <= i < |nodes| && nodes[i].capability in SEARCH_CACHES ==>
      && ("search_engine_cache_adapter" in lookups ==> nodes[i].dependencies == [lookups["search_engine_cache_adapter"]])
      && ("search_engine_cache_adapter" !in lookups && "alternate_search_cache_adapter" in lookups ==>
            nodes[i].dependencies == [lookups["alternate_search_cache_adapter"]])
  }

  lemma WaitingStores(before: seq<PlanNode>, nodes: seq<PlanNode>, producers: Producers)
    requires Waits(before, nodes, producers)
    ensures Searches(before, nodes, producers.lookups)
    ensures forall i :: |before| <= i < |nodes| ==>
              || nodes[i].dependencies == [producers.terminal] || nodes[i].capability in ["rag_document_cache", "browser_cache"]
              || nodes[i].capability in SEARCH_CACHES
    ensures producers.text.Some? ==> Stores(before, nodes, "rag_document_cache", producers.text.value)
    ensures producers.rendering.Some? ==> Stores(before, nodes, "browser_cache", producers.rendering.value)
  {
  }

  method AddStrategy(before: seq<PlanNode>, nodes0: seq<PlanNode>, selected: seq<string>, i: nat, group: Option<string>,
                     producers: Producers)
    returns (nodes: seq<PlanNode>)
    requires i < |selected| && Series(before, nodes0, 17, selected, i, "cache", group) && Waits(before, nodes0, producers)
    requires selected[i] in POST_CACHE && producers.Valid(Ids(nodes0))
    ensures Series(before, nodes, 17, selected, i + 1, "cache", group) && Waits(before, nodes, producers)
    ensures Ids(nodes0) <= Ids(nodes)
  {
    var dependency := PostDependency(selected[i], producers);
    DependencyValid(selected[i], producers, Ids(nodes0));
    var node := Node(CachePost(i, selected[i]), selected[i], "cache", dependency).(group := group);
    StrategyOk(node);
    nodes := AddNext(before, nodes0, 17, selected, i, "cache", group, node);
  }

  /** A search cache waits for its search adapter, a strategy with a producer for that, others for the end. */
  function PostDependency(capability: string, p: Producers): (d: NodeId)
    ensures capability == "rag_document_cache" && p.text.Some? ==> d == p.text.value
    ensures capability == "browser_cache" && p.rendering.Some? ==> d == p.rendering.value
  {
    if capability == "rag_document_cache" && p.text.Some? then p.text.value
    else if capability == "browser_cache" && p.rendering.Some? then p.rendering.value
    else if capability == "search_snippet_cache" || capability == "search_cache" then
      if "search_engine_cache_adapter" in p.lookups then p.lookups["search_engine_cache_adapter"]
      else if "alternate_search_cache_adapter" in p.lookups then p.lookups["alternate_search_cache_adapter"]
      else p.terminal
    else p.terminal
  }

  lemma DependencyValid(capability: string, p: Producers, ids: set<NodeId>)
    requires p.Valid(ids)
    ensures 2 < Stage(PostDependency(capability, p)) < 17 && PostDependency(capability, p) in ids
  {
  }

  lemma StrategyOk(n: PlanNode)
    requires n.id.CachePost? && n.capability in POST_CACHE && n.adapter == "cache"
    requires |n.dependencies| == 1 && 2 < Stage(n.dependencies[0]) < 17
    ensures NodeOk(n) && Written(n.capability)
  {
    CacheAvoidsHttp(n.capability);
  }

  // ---- Filtering and validation ------------------------------------------------------------

  function Kept(registry: Registry, request: Request, nodes: seq<PlanNode>): (r: seq<PlanNode>)
    ensures forall n :: n in r <==> n in nodes && Permitted(registry, request, n.capability)
  {
    if nodes == [] then []
    else
      var rest := Kept(registry, request, nodes[1..]);
      assert forall n :: n in nodes <==> n == nodes[0] || n in nodes[1..];
      if Permitted(registry, request, nodes[0].capability) then [nodes[0]] + rest else rest
  }

  lemma KeptIsRanked(registry: Registry, request: Request, nodes: seq<PlanNode>)
    requires Ranked(nodes)
    ensures Ranked(Kept(registry, request, nodes))
  {
    if nodes != [] {
      KeptIsRanked(registry, request, nodes[1..]);
      var rest := Kept(registry, request, nodes[1..]);
      forall i | 0 <= i < |rest| ensures Before(nodes[0].id, rest[i].id) {
        assert rest[i] in rest && rest[i] in nodes[1..];
      }
    }
  }

  /** Every dependency of every node is a node of the plan. */
  method ValidateNodes(registry: Registry, nodes: seq<PlanNode>) returns (r: Result<(), PlanError>)
    ensures r.Ok? <==> forall n :: n in nodes ==>
              registry.Resolve(n.capability).Some? && HasDependencies(nodes, n)
    ensures r.Err? ==> || (r.error == UnknownCapability && exists n :: n in nodes && registry.Resolve(n.capability).None?)
                       || (r.error == MissingDependency && !Rooted(nodes))
  {
    var ids := Ids(nodes);
    for i := 0 to |nodes|
      invariant forall j :: 0 <= j < i ==>
                  registry.Resolve(nodes[j].capability).Some? && HasDependencies(nodes, nodes[j])
    {
      if registry.Resolve(nodes[i].capability).None? {
        assert nodes[i] in nodes;
        return Err(UnknownCapability);
      }
      if exists d :: d in nodes[i].dependencies && d !in ids {
        assert nodes[i] in nodes && !HasDependencies(nodes, nodes[i]);
        return Err(MissingDependency);
      }
    }
    return Ok(());
  }

  predicate HasAdapter(nodes: seq<PlanNode>, adapter: string) {
    exists n :: n in nodes && n.adapter == adapter
  }

  /** A requested output that the plan itself must contain. */
  predicate MustSchedule(registry: Registry, request: Request, outputs: seq<string>, family: Family,
                         nodes: seq<PlanNode>, capability: string)
  {
    && !(capability == "clean_text" && outputs == ["clean_text"] && (family != Web || request.intent == "crawl"))
    && registry.Resolve(capability).Some?
    && var id := registry.Resolve(capability).value;
       && id in registry.schedulable
       && !(id in BROWSER_EMBEDDED && HasAdapter(nodes, "browser"))
       && !(id in HTTP_EMBEDDED_AUTH && HasAdapter(nodes, "http"))
  }

  predicate Scheduled(registry: Registry, nodes: seq<PlanNode>, id: string) {
    exists n :: n in nodes && registry.Resolve(n.capability) == Some(id)
  }

  /** Every requested output that has to be a node is one, and is permitted. */
  predicate AllScheduled(registry: Registry, request: Request, outputs: seq<string>, family: Family, nodes: seq<PlanNode>) {
    forall c :: c in outputs && MustSchedule(registry, request, outputs, family, nodes, c) ==>
      && Permitted(registry, request, registry.Resolve(c).value)
      && Scheduled(registry, nodes, registry.Resolve(c).value)
  }

  /** Nothing is posted or submitted without approval, nor repeated. */
  predicate ApprovalMarked(nodes: seq<PlanNode>) {
    forall n :: n in nodes && (n.id == AuthForm || (n.id == Http && n.capability == "http_post")) ==>
      n.requiresApproval && n.retries == 0 && (n.id == AuthForm ==> n.capability == "form_submit")
  }

  /** There is a requested output that has to be scheduled, a denied one if `denied`. */
  ghost predicate Unmet(registry: Registry, request: Request, outputs: seq<string>, denied: bool) {
    exists c :: c in outputs && Schedulable(registry, c) && (denied ==> !Permitted(registry, request, registry.Resolve(c).value))
  }

  /** No requested schedulable output is silently dropped. */
  method ValidateOutputs(registry: Registry, request: Request, outputs: seq<string>, family: Family,
                         nodes: seq<PlanNode>)
    returns (r: Result<(), PlanError>)
    ensures r.Ok? <==> AllScheduled(registry, request, outputs, family, nodes)
    ensures r.Err? ==> r.error in {OutputsDenied, OutputsUnscheduled}
                       && Unmet(registry, request, outputs, r.error == OutputsDenied)
  {
    var denied, missing := false, false;
    for i := 0 to |outputs|
      invariant !denied && !missing <==>
                forall j :: 0 <= j < i && MustSchedule(registry, request, outputs, family, nodes, outputs[j]) ==>
                  && Permitted(registry, request, registry.Resolve(outputs[j]).value)
                  && Scheduled(registry, nodes, registry.Resolve(outputs[j]).value)
      invariant (denied ==> Unmet(registry, request, outputs, true)) && (missing ==> Unmet(registry, request, outputs, false))
    {
      if MustSchedule(registry, request, outputs, family, nodes, outputs[i]) {
        var id := registry.Resolve(outputs[i]).value;
        assert outputs[i] in outputs && Schedulable(registry, outputs[i]);
        if !Permitted(registry, request, id) {
          denied := true;
        } else if !Scheduled(registry, nodes, id) {
          missing := true;
        }
      }
    }
    if denied {
      return Err(OutputsDenied);
    }
    if missing {
      return Err(OutputsUnscheduled);
    }
    return Ok(());
  }

  // ---- What every returned plan guarantees -------------------------------------------------

  ghost predicate OneHttp(nodes: seq<PlanNode>) {
    exists i :: 0 <= i < |nodes| && nodes[i].adapter == "http"
                && forall j :: 0 <= j < |nodes| && j != i ==> nodes[j].adapter != "http"
  }

  lemma RankedIsExecutable(nodes: seq<PlanNode>)
    requires Shaped(nodes)
    requires Rooted(nodes)
    ensures Executable(nodes)
  {
    forall i, d | 0 <= i < |nodes| && d in nodes[i].dependencies ensures d in Ids(nodes[..i]) {
      assert nodes[i] in nodes && NodeOk(nodes[i]) && HasDependencies(nodes, nodes[i]);
      assert Before(d, nodes[i].id);
      var n :| n in nodes && n.id == d;
      var j :| 0 <= j < |nodes| && nodes[j] == n;
      assert j < i;
      assert nodes[..i][j] == n;
    }
  }

  /** The identifier texts of the nodes are pairwise different. */
  ghost predicate UniqueTexts(nodes: seq<PlanNode>) {
    forall i, j :: 0 <= i < j < |nodes| ==> Text(nodes[i].id) != Text(nodes[j].id)
  }

  lemma RankedTexts(nodes: seq<PlanNode>)
    requires Shaped(nodes)
    ensures UniqueTexts(nodes)
  {
    forall i, j | 0 <= i < j < |nodes| ensures Text(nodes[i].id) != Text(nodes[j].id) {
      assert NodeOk(nodes[i]) && NodeOk(nodes[j]);
      TextSeparates(nodes[i].id, nodes[j].id);
    }
  }

  lemma ChainCons(nodes: seq<PlanNode>, id: NodeId, rest: seq<NodeId>)
    requires Chain(nodes, rest) && Link(nodes, id, rest[0])
    ensures Chain(nodes, [id] + rest)
  {
    var path := [id] + rest;
    forall k | 0 <= k < |path| - 1 ensures Link(nodes, path[k], path[k + 1]) {
      if k > 0 {
        assert Link(nodes, rest[k - 1], rest[k]);
      }
    }
  }

  /** Following the single dependency of each node always ends at the policy node. */
  lemma {:induction false} ReachesPolicy(nodes: seq<PlanNode>, i: nat) returns (path: seq<NodeId>)
    requires Shaped(nodes) && Executable(nodes)
    requires i < |nodes| && nodes[i].id != Normalize && nodes[i].id != Policy
    ensures Chain(nodes, path) && |path| > 1 && path[0] == nodes[i].id && path[|path| - 1] == Policy
    decreases i
  {
    var n := nodes[i];
    assert n in nodes && NodeOk(n);
    var d := n.dependencies[0];
    assert d in n.dependencies && d in Ids(nodes[..i]);
    assert Link(nodes, n.id, d);
    if d == Policy {
      path := [n.id, Policy];
    } else {
      var m :| m in nodes[..i] && m.id == d;
      var j :| 0 <= j < i && nodes[j] == m;
      var rest := ReachesPolicy(nodes, j);
      path := [n.id] + rest;
      ChainCons(nodes, n.id, rest);
    }
  }

  /** Below the core nodes and the session, following dependencies always passes the gate. */
  lemma {:induction false} ReachesGate(nodes: seq<PlanNode>, i: nat, gate: NodeId) returns (path: seq<NodeId>)
    requires Shaped(nodes) && Executable(nodes) && Gated(nodes, gate)
    requires i < |nodes| && Stage(nodes[i].id) > 2
    ensures Chain(nodes, path) && |path| > 1 && path[0] == nodes[i].id && path[|path| - 1] == gate
    decreases i
  {
    var n := nodes[i];
    assert n in nodes && NodeOk(n);
    var d := n.dependencies[0];
    assert d in n.dependencies && d in Ids(nodes[..i]);
    assert Link(nodes, n.id, d);
    if Stage(n.id) <= 4 {
      path := [n.id, gate];
    } else {
      var m :| m in nodes[..i] && m.id == d;
      var j :| 0 <= j < i && nodes[j] == m;
      var rest := ReachesGate(nodes, j, gate);
      path := [n.id] + rest;
      ChainCons(nodes, n.id, rest);
    }
  }

  /** Every node but the core nodes and the session itself depends on the session, if one was requested. */
  ghost predicate SessionGuarded(nodes: seq<PlanNode>, gate: NodeId) {
    && (exists n :: n in nodes && n.id == gate && n.group.None? && n.fallbackFor.None?)
    && (forall n :: n in nodes && Stage(n.id) > 2 ==> DependsOn(nodes, n.id, gate))
  }

  /** The gate is a node of the plan, because the HTTP node waits for it. */
  lemma GateIsThere(nodes: seq<PlanNode>, gate: NodeId)
    requires Shaped(nodes) && Executable(nodes) && Gated(nodes, gate) && (gate == Policy || gate.AuthSession?)
    requires exists n :: n in nodes && n.id == Http
    ensures exists n :: n in nodes && n.id == gate && n.group.None? && n.fallbackFor.None?
  {
    var h :| h in nodes && h.id == Http;
    assert h.dependencies == [gate];
    var i :| 0 <= i < |nodes| && nodes[i] == h;
    assert gate in h.dependencies && gate in Ids(nodes[..i]);
    var g :| g in nodes[..i] && g.id == gate;
    assert g in nodes && NodeOk(g);
  }

  lemma PlanIsGated(nodes: seq<PlanNode>, gate: NodeId)
    requires Shaped(nodes) && Executable(nodes) && Gated(nodes, gate) && (gate == Policy || gate.AuthSession?)
    requires exists n :: n in nodes && n.id == Http
    ensures SessionGuarded(nodes, gate)
  {
    GateIsThere(nodes, gate);
    forall n | n in nodes && Stage(n.id) > 2 ensures DependsOn(nodes, n.id, gate) {
      var i :| 0 <= i < |nodes| && nodes[i] == n;
      var path := ReachesGate(nodes, i, gate);
    }
  }

  /** Nodes written after the HTTP node are of a later stage. */
  lemma GatedGrows(before: seq<PlanNode>, nodes: seq<PlanNode>, gate: NodeId)
    requires before <= nodes && Ranked(nodes) && Gated(before, gate)
    requires before != [] && before[|before| - 1].id == Http
    ensures Gated(nodes, gate)
  {
    forall n | n in nodes && 3 <= Stage(n.id) <= 4 ensures n.dependencies == [gate] {
      var i :| 0 <= i < |nodes| && nodes[i] == n;
      assert nodes[|before| - 1].id == Http;
      assert i < |before|;
      assert before[i] in before;
    }
  }

  lemma PlanIsGuarded(nodes: seq<PlanNode>)
    requires Shaped(nodes) && Executable(nodes)
    requires exists n :: n in nodes && n.id == Http
    ensures PolicyGuarded(nodes)
  {
    forall n | n in nodes && n.id != Normalize && n.id != Policy
      ensures n.adapter != "core" && DependsOn(nodes, n.id, Policy)
    {
      assert NodeOk(n);
      var i :| 0 <= i < |nodes| && nodes[i] == n;
      var path := ReachesPolicy(nodes, i);
    }
    assert forall n :: n in nodes ==> NodeOk(n);
    var h :| h in nodes && h.id == Http;
    var i :| 0 <= i < |nodes| && nodes[i] == h;
    var path := ReachesPolicy(nodes, i);
    assert Link(nodes, path[|path| - 2], path[|path| - 2 + 1]);
    var x :| x in nodes && x.id == path[|path| - 2] && path[|path| - 1] in x.dependencies;
    var k :| 0 <= k < |nodes| && nodes[k] == x;
    assert Policy in Ids(nodes[..k]);
    var p :| p in nodes[..k] && p.id == Policy;
    assert p in nodes;
  }

  lemma UniqueHttp(nodes: seq<PlanNode>)
    requires Shaped(nodes) && UniqueIds(nodes)
    requires exists n :: n in nodes && IsHttp(n.capability)
    ensures OneHttp(nodes) && exists n :: n in nodes && n.id == Http
  {
    var n :| n in nodes && IsHttp(n.capability);
    assert NodeOk(n);
    var i :| 0 <= i < |nodes| && nodes[i] == n;
    forall j | 0 <= j < |nodes| && j != i ensures nodes[j].adapter != "http" {
      assert nodes[j] in nodes && NodeOk(nodes[j]);
    }
  }

  /** The nodes of a request before filtering. */
  method DraftNodes(registry: Registry, request: Request, outputs: seq<string>, family: Family, bare: Family)
    returns (r: Result<seq<PlanNode>, PlanError>)
    requires request.namedApi.Some? ==> request.namedApi.value in API_CAPABILITIES
    ensures r.Ok? ==> Built(r.value) && Gated(r.value, Gate(outputs)) && Fed(r.value) && HasHttp(r.value, outputs)
    ensures r.Err? ==> Reason(registry, request, outputs, family, bare, r.error)
    ensures r.Ok? ==> Constructible(registry, request, outputs, family, bare)
    ensures r.Ok? ==> DraftIs(registry, request, outputs, family, r.value)
  {
    var core := CoreNodes(outputs);
    if core.Err? {
      return Err(core.error);
    }
    var (first, dependency) := core.value;
    var looked, lookup, lookups := PreCacheNodes(registry, request, outputs, first, dependency);
    var nodes := HttpNode(outputs, family, looked, dependency, lookup);
    assert HasHttp(nodes, outputs) by {
      assert nodes[|nodes| - 1] in nodes;
    }
    var rest := RestOfDraft(registry, request, outputs, family, bare, nodes, lookups);
    if rest.Err? {
      return Err(rest.error);
    }
    GatedGrows(nodes, rest.value, dependency);
    HttpStays(nodes, rest.value, outputs);
    return rest;
  }

  /** Everything after the HTTP node. */
  method RestOfDraft(registry: Registry, request: Request, outputs: seq<string>, family: Family, bare: Family,
                     withHttp: seq<PlanNode>, lookups: map<string, NodeId>)
    returns (r: Result<seq<PlanNode>, PlanError>)
    requires request.namedApi.Some? ==> request.namedApi.value in API_CAPABILITIES
    requires Built(withHttp) && AllBelow(withHttp, 5) && Http in Ids(withHttp)
    requires Found(lookups, withHttp)
    ensures r.Ok? ==> Built(r.value) && withHttp <= r.value && Fed(r.value)
    ensures r.Ok? ==> RestIs(registry, request, outputs, family, withHttp, r.value)
    ensures r.Err? ==> Reason(registry, request, outputs, family, bare, r.error)
    ensures r.Ok? ==> && !Reason(registry, request, outputs, family, bare, ApiConflict)
                      && !Reason(registry, request, outputs, family, bare, RagNeedsCleanText)
                      && !Reason(registry, request, outputs, family, bare, RenderTarget)
  {
    var nodes, acquired := AcquisitionNodes(outputs, withHttp);
    var extracted := FamilyNodes(registry, request, outputs, family, nodes, acquired);
    if extracted.Err? {
      return Err(extracted.error);
    }
    var (after, terminal) := extracted.value;
    IdsGrow(withHttp, after);
    IdsGrow(nodes, after);
    r := CacheStages(registry, request, outputs, family, bare, after, acquired, terminal, lookups);
  }

  /** The lookups are nodes of the plan. */
  predicate Found(lookups: map<string, NodeId>, nodes: seq<PlanNode>) {
    forall c :: c in lookups ==> Stage(lookups[c]) == 3 && lookups[c] in Ids(nodes)
  }

  /** The producers that are missing, and then one node per requested strategy in table order. */
  ghost predicate StrategiesAre(outputs: seq<string>, before: seq<PlanNode>, produced: seq<PlanNode>, nodes: seq<PlanNode>) {
    ProducersAre(outputs, before, produced) && Appends(produced, nodes, Pick(POST_CACHE, outputs), "cache", Some("cache-strategies"))
  }

  ghost predicate CachesAre(outputs: seq<string>, before: seq<PlanNode>, nodes: seq<PlanNode>) {
    exists produced :: StrategiesAre(outputs, before, produced, nodes)
  }

  /** The requested steps, the nodes of the request's family behind them, and the cache strategies: nothing else. */
  ghost predicate RestIs(registry: Registry, request: Request, outputs: seq<string>, family: Family,
                         withHttp: seq<PlanNode>, nodes: seq<PlanNode>)
  {
    exists steps, extracted ::
      && StepsAre(outputs, withHttp, steps)
      && FamilyShape(registry, request, outputs, family, steps, extracted, Acquired(outputs))
      && CachesAre(outputs, extracted, nodes)
  }

  /** The whole of a draft: the core, the lookups, the HTTP node and the rest. */
  ghost predicate DraftIs(registry: Registry, request: Request, outputs: seq<string>, family: Family, nodes: seq<PlanNode>) {
    exists core, looked, withHttp ::
      && CoreIs(outputs, core)
      && Appends(core, looked, Lookups(registry, request, outputs), "cache", None) && Hang(core, looked, Gate(outputs))
      && HttpIs(outputs, family, looked, Gate(outputs), LastAdded(core, looked), withHttp)
      && RestIs(registry, request, outputs, family, withHttp, nodes)
  }

  /** The cache strategies and what they need. */
  method CacheStages(registry: Registry, request: Request, outputs: seq<string>, family: Family, bare: Family,
                     before: seq<PlanNode>, acquired: NodeId, terminal: NodeId, lookups: map<string, NodeId>)
    returns (r: Result<seq<PlanNode>, PlanError>)
    requires Built(before) && AllBelow(before, 15) && Found(lookups, before)
    requires 4 <= Stage(acquired) < 7 && 4 <= Stage(terminal) < 15 && {acquired, terminal} <= Ids(before)
    ensures r.Ok? ==> Built(r.value) && before <= r.value && Fed(r.value) && CachesAre(outputs, before, r.value)
    ensures r.Err? ==> Reason(registry, request, outputs, family, bare, r.error)
    ensures r.Ok? ==> && !Reason(registry, request, outputs, family, bare, RagNeedsCleanText)
                      && !Reason(registry, request, outputs, family, bare, RenderTarget)
  {
    var produced := ProducerNodes(registry, request, outputs, family, bare, before, acquired, terminal);
    if produced.Err? {
      return Err(produced.error);
    }
    var (withProducers, text, rendering) := produced.value;
    IdsGrow(before, withProducers);
    var nodes := PostCacheNodes(outputs, withProducers, text, rendering, lookups, terminal);
    StrategiesAreFed(outputs, withProducers, nodes, text, rendering);
    assert StrategiesAre(outputs, before, withProducers, nodes);
    return Ok(nodes);
  }

  /** No reason is known against the request before its nodes are filtered. */
  ghost predicate Constructible(registry: Registry, request: Request, outputs: seq<string>, family: Family, bare: Family) {
    && !Reason(registry, request, outputs, family, bare, SessionConflict)
    && !Reason(registry, request, outputs, family, bare, ApiConflict)
    && !Reason(registry, request, outputs, family, bare, RagNeedsCleanText)
    && !Reason(registry, request, outputs, family, bare, RenderTarget)
  }

  predicate HasHttp(nodes: seq<PlanNode>, outputs: seq<string>) {
    exists n :: n in nodes && n.id == Http && n.capability == HttpCapability(outputs)
  }

  /** The HTTP node runs the requested operation and no other. */
  predicate HttpAs(nodes: seq<PlanNode>, outputs: seq<string>) {
    forall n :: n in nodes && n.id == Http ==> n.capability == HttpCapability(outputs)
  }

  lemma HttpIsOne(draft: seq<PlanNode>, outputs: seq<string>)
    requires Ranked(draft) && HasHttp(draft, outputs)
    ensures HttpAs(draft, outputs)
  {
    var h :| h in draft && h.id == Http && h.capability == HttpCapability(outputs);
    forall n | n in draft && n.id == Http ensures n == h {
      var i :| 0 <= i < |draft| && draft[i] == n;
      var j :| 0 <= j < |draft| && draft[j] == h;
    }
  }

  lemma HttpStays(before: seq<PlanNode>, nodes: seq<PlanNode>, outputs: seq<string>)
    requires before <= nodes && HasHttp(before, outputs)
    ensures HasHttp(nodes, outputs)
  {
    var n :| n in before && n.id == Http && n.capability == HttpCapability(outputs);
    assert n in nodes;
  }

  /** A cache of derived content waits for a node that produces that content. */
  predicate Fed(nodes: seq<PlanNode>) {
    forall n :: n in nodes && n.id.CachePost? ==> FedNode(nodes, n)
  }

  predicate FedNode(nodes: seq<PlanNode>, n: PlanNode) {
    && |n.dependencies| == 1
    && (n.capability == "rag_document_cache" ==> Produces(nodes, n.dependencies[0], "reader", ["clean_text"]))
    && (n.capability == "browser_cache" ==> Produces(nodes, n.dependencies[0], "browser", BROWSER_ENGINES))
  }

  lemma StrategiesAreFed(outputs: seq<string>, before: seq<PlanNode>, nodes: seq<PlanNode>,
                         text: Option<NodeId>, rendering: Option<NodeId>)
    requires Built(nodes) && before <= nodes && AllBelow(before, 17)
    requires Appends(before, nodes, Pick(POST_CACHE, outputs), "cache", Some("cache-strategies"))
    requires "rag_document_cache" in outputs ==>
               text.Some? && Produces(before, text.value, "reader", ["clean_text"])
               && Stores(before, nodes, "rag_document_cache", text.value)
    requires "browser_cache" in outputs ==>
               rendering.Some? && Produces(before, rendering.value, "browser", BROWSER_ENGINES)
               && Stores(before, nodes, "browser_cache", rendering.value)
    ensures Fed(nodes)
  {
    forall k | 0 <= k < |before| ensures Stage(nodes[k].id) < 17 {
      assert before[k] in before;
    }
    forall n | n in nodes && n.id.CachePost? ensures FedNode(nodes, n) {
      var i :| 0 <= i < |nodes| && nodes[i] == n;
      assert NodeOk(n);
      var selected := Pick(POST_CACHE, outputs);
      assert IsFor(nodes[|before| + (i - |before|)], selected[i - |before|], "cache", Some("cache-strategies"));
      assert selected[i - |before|] in selected;
      if n.capability == "rag_document_cache" {
        ProducesStill(before, nodes, text.value, "reader", ["clean_text"]);
      }
      if n.capability == "browser_cache" {
        ProducesStill(before, nodes, rendering.value, "browser", BROWSER_ENGINES);
      }
    }
  }

  /** A producer that a kept strategy depends on was kept as well. */
  lemma KeptAreFed(registry: Registry, request: Request, draft: seq<PlanNode>)
    requires Ranked(draft) && Fed(draft)
    requires Rooted(Kept(registry, request, draft))
    ensures Fed(Kept(registry, request, draft))
  {
    var nodes := Kept(registry, request, draft);
    forall n | n in nodes && n.id.CachePost? ensures FedNode(nodes, n) {
      assert FedNode(draft, n);
      assert HasDependencies(nodes, n) && n.dependencies[0] in n.dependencies;
      var q :| q in nodes && q.id == n.dependencies[0];
      if n.capability == "rag_document_cache" {
        SameProducer(draft, q, "reader", ["clean_text"]);
      }
      if n.capability == "browser_cache" {
        SameProducer(draft, q, "browser", BROWSER_ENGINES);
      }
    }
  }

  lemma SameProducer(draft: seq<PlanNode>, q: PlanNode, adapter: string, capabilities: seq<string>)
    requires Ranked(draft) && q in draft && Produces(draft, q.id, adapter, capabilities)
    ensures q.adapter == adapter && q.capability in capabilities
  {
    var p :| p in draft && p.id == q.id && p.adapter == adapter && p.capability in capabilities;
    var i :| 0 <= i < |draft| && draft[i] == p;
    var j :| 0 <= j < |draft| && draft[j] == q;
  }

  /** What the planner writes for a request, before anything is filtered. */
  ghost predicate Drafted(registry: Registry, request: Request, outputs: seq<string>, family: Family, draft: seq<PlanNode>) {
    && Built(draft) && Gated(draft, Gate(outputs)) && Fed(draft) && HasHttp(draft, outputs)
    && DraftIs(registry, request, outputs, family, draft)
  }

  /** The plan is what the lists leave of a draft: a node is dropped exactly if they do not admit its capability. */
  ghost predicate KeepsAdmitted(registry: Registry, request: Request, outputs: seq<string>, family: Family, plan: seq<PlanNode>) {
    exists draft ::
      && Drafted(registry, request, outputs, family, draft) && Ranked(plan)
      && forall n :: n in plan <==> n in draft && Admits(registry, request, n.capability)
  }

  lemma KeptIsAdmitted(registry: Registry, request: Request, outputs: seq<string>, family: Family, draft: seq<PlanNode>)
    requires Drafted(registry, request, outputs, family, draft)
    ensures KeepsAdmitted(registry, request, outputs, family, Kept(registry, request, draft))
  {
    var plan := Kept(registry, request, draft);
    KeptIsRanked(registry, request, draft);
    forall n: PlanNode ensures n in plan <==> n in draft && Admits(registry, request, n.capability) {
      PermittedIsAdmitted(registry, request, n.capability);
    }
  }

  /** What a request gets of an output: a node, or an adapter that covers it, unless nothing is owed. */
  predicate Served(registry: Registry, request: Request, outputs: seq<string>, family: Family, plan: seq<PlanNode>, output: string) {
    var id := registry.Resolve(output);
    || id.None? || id.value !in registry.schedulable
    || (exists n :: n in plan && registry.Resolve(n.capability) == id)
    || (id.value in BROWSER_EMBEDDED && exists n :: n in plan && n.adapter == "browser")
    || (id.value in HTTP_EMBEDDED_AUTH && exists n :: n in plan && n.adapter == "http")
    || (output == "clean_text" && outputs == ["clean_text"] && (family != Web || request.intent == "crawl"))
  }

  /**
   `plan`: either an error, or a plan that lists every node after its dependencies, has unique
   identities, acquires over HTTP exactly once, contains only permitted capabilities, and lets
   nothing but the two core nodes run without a dependency chain to the policy node.
   */
  method BuildPlan(registry: Registry, request: Request) returns (r: Result<seq<PlanNode>, PlanError>)
    requires request.namedApi.Some? ==> request.namedApi.value in API_CAPABILITIES
    ensures r.Ok? ==> Executable(r.value) && UniqueTexts(r.value) && OneHttp(r.value) && PolicyGuarded(r.value)
    ensures r.Ok? ==> SessionGuarded(r.value, Gate(Canonical(registry, request.outputs))) && Fed(r.value)
    ensures var outputs := Canonical(registry, request.outputs);
            var family := Classify(request.suffix, request.namedApi, outputs);
            var bare := Classify(request.suffix, request.namedApi, []);
            && (r.Ok? ==> Constructible(registry, request, outputs, family, bare)
                          && exists n :: n in r.value && IsHttp(n.capability))
            && (r.Ok? ==> HttpAs(r.value, outputs))
            && (r.Err? ==> Reason(registry, request, outputs, family, bare, r.error))
            && (Open(registry, request) && NothingToSchedule(registry, outputs)
                  && Constructible(registry, request, outputs, family, bare)
                ==> r.Ok?)
    ensures r.Ok? ==> forall n :: n in r.value ==> Admits(registry, request, n.capability)
    ensures var outputs := Canonical(registry, request.outputs);
            var family := Classify(request.suffix, request.namedApi, outputs);
            r.Ok? ==> && ApprovalMarked(r.value) && KeepsAdmitted(registry, request, outputs, family, r.value)
                      && forall c :: c in outputs ==> Served(registry, request, outputs, family, r.value, c)
  {
    var outputs := Canonical(registry, request.outputs);
    var family := Classify(request.suffix, request.namedApi, outputs);
    var bare := Classify(request.suffix, request.namedApi, []);
    var draft := DraftNodes(registry, request, outputs, family, bare);
    if draft.Err? {
      r := Err(draft.error);
    } else {
      r := FilterAndValidate(registry, request, outputs, family, bare, draft.value);
      KeptIsAdmitted(registry, request, outputs, family, draft.value);
    }
    if r.Ok? {
      AdmittedAndServed(registry, request, outputs, family, r.value);
    }
    if r.Err? && Open(registry, request) {
      OpenRequest(registry, request, outputs, family, bare, r.error);
    }
  }

  lemma AdmittedAndServed(registry: Registry, request: Request, outputs: seq<string>, family: Family, plan: seq<PlanNode>)
    requires forall n :: n in plan ==> Permitted(registry, request, n.capability)
    requires AllScheduled(registry, request, outputs, family, plan)
    ensures forall n :: n in plan ==> Admits(registry, request, n.capability)
    ensures forall c :: c in outputs ==> Served(registry, request, outputs, family, plan, c)
  {
    forall n | n in plan ensures Admits(registry, request, n.capability) {
      PermittedIsAdmitted(registry, request, n.capability);
    }
  }

  method FilterAndValidate(registry: Registry, request: Request, outputs: seq<string>, family: Family, ghost bare: Family,
                           draft: seq<PlanNode>)
    returns (r: Result<seq<PlanNode>, PlanError>)
    requires Built(draft) && Gated(draft, Gate(outputs)) && Fed(draft) && HasHttp(draft, outputs)
    ensures r.Ok? <==> Passes(registry, request, outputs, family, draft)
    ensures r.Ok? ==> r.value == Kept(registry, request, draft) && Fed(r.value)
    ensures r.Err? ==> Reason(registry, request, outputs, family, bare, r.error)
    ensures r.Err? ==> r.error in {UnknownCapability, HttpDenied, MissingDependency, OutputsDenied, OutputsUnscheduled}
    ensures r.Ok? ==> Executable(r.value) && UniqueTexts(r.value) && OneHttp(r.value) && PolicyGuarded(r.value)
    ensures r.Ok? ==> SessionGuarded(r.value, Gate(outputs)) && HttpAs(r.value, outputs)
    ensures r.Ok? ==> forall n :: n in r.value ==> Permitted(registry, request, n.capability)
    ensures r.Ok? ==> ApprovalMarked(r.value) && AllScheduled(registry, request, outputs, family, r.value)
  {
    r := Filter(registry, request, outputs, family, bare, draft);
    if r.Ok? {
      HttpIsOne(draft, outputs);
      KeptIsRanked(registry, request, draft);
      KeptAreFed(registry, request, draft);
      PlanGuarantees(r.value, Gate(outputs));
    }
  }

  /** Keep what is permitted, and check that it is a plan for the request. */
  method Filter(registry: Registry, request: Request, outputs: seq<string>, family: Family, ghost bare: Family, draft: seq<PlanNode>)
    returns (r: Result<seq<PlanNode>, PlanError>)
    requires Built(draft) && HasHttp(draft, outputs)
    ensures r.Ok? <==> Passes(registry, request, outputs, family, draft)
    ensures r.Ok? ==> r.value == Kept(registry, request, draft)
    ensures r.Err? ==> Reason(registry, request, outputs, family, bare, r.error)
    ensures r.Err? ==> r.error in {UnknownCapability, HttpDenied, MissingDependency, OutputsDenied, OutputsUnscheduled}
  {
    if exists n :: n in draft && registry.Resolve(n.capability).None? {
      UnknownIsWritten(registry, draft);
      return Err(UnknownCapability);
    }
    var nodes := Kept(registry, request, draft);
    if !exists n :: n in nodes && IsHttp(n.capability) {
      DeniedHttp(registry, request, outputs, draft);
      return Err(HttpDenied);
    }
    DroppedIsDenied(registry, request, draft);
    var valid := Validate(registry, request, outputs, family, nodes);
    r := if valid.Err? then Err(valid.error) else Ok(nodes);
  }

  /** The two checks of the kept nodes, which are all permitted. */
  method Validate(registry: Registry, request: Request, outputs: seq<string>, family: Family, nodes: seq<PlanNode>)
    returns (r: Result<(), PlanError>)
    requires forall n :: n in nodes ==> registry.Resolve(n.capability).Some?
    ensures r.Ok? <==> Rooted(nodes) && AllScheduled(registry, request, outputs, family, nodes)
    ensures r.Err? ==> || (r.error == MissingDependency && !Rooted(nodes))
                       || (r.error == OutputsDenied && Unmet(registry, request, outputs, true))
                       || (r.error == OutputsUnscheduled && Unmet(registry, request, outputs, false))
  {
    r := ValidateNodes(registry, nodes);
    if r.Ok? {
      r := ValidateOutputs(registry, request, outputs, family, nodes);
    }
  }

  lemma UnknownIsWritten(registry: Registry, draft: seq<PlanNode>)
    requires Built(draft) && exists n :: n in draft && registry.Resolve(n.capability).None?
    ensures exists c :: Written(c) && registry.Resolve(c).None?
  {
    var n :| n in draft && registry.Resolve(n.capability).None?;
    assert Written(n.capability);
  }

  /** The draft has all dependencies, so one that is missing afterwards was denied. */
  lemma DroppedIsDenied(registry: Registry, request: Request, draft: seq<PlanNode>)
    requires Built(draft)
    ensures !Rooted(Kept(registry, request, draft)) ==> exists c :: Written(c) && !Permitted(registry, request, c)
  {
    var nodes := Kept(registry, request, draft);
    if !Rooted(nodes) {
      var n :| n in nodes && !HasDependencies(nodes, n);
      var d :| d in n.dependencies && d !in Ids(nodes);
      assert HasDependencies(draft, n) && d in Ids(draft);
      var m :| m in draft && m.id == d;
      assert Written(m.capability) && m !in nodes;
    }
  }

  /** What filtering and validation ask of a draft. */
  predicate Passes(registry: Registry, request: Request, outputs: seq<string>, family: Family, draft: seq<PlanNode>) {
    var nodes := Kept(registry, request, draft);
    && (forall n :: n in draft ==> registry.Resolve(n.capability).Some?)
    && (exists n :: n in nodes && IsHttp(n.capability))
    && Rooted(nodes)
    && AllScheduled(registry, request, outputs, family, nodes)
  }

  lemma DeniedHttp(registry: Registry, request: Request, outputs: seq<string>, draft: seq<PlanNode>)
    requires HasHttp(draft, outputs) && !exists n :: n in Kept(registry, request, draft) && IsHttp(n.capability)
    ensures !Permitted(registry, request, HttpCapability(outputs))
  {
    var n :| n in draft && n.id == Http && n.capability == HttpCapability(outputs);
  }

  lemma PlanGuarantees(nodes: seq<PlanNode>, gate: NodeId)
    requires Shaped(nodes) && Gated(nodes, gate) && (gate == Policy || gate.AuthSession?)
    requires Rooted(nodes)
    requires exists n :: n in nodes && IsHttp(n.capability)
    ensures Executable(nodes) && UniqueTexts(nodes) && OneHttp(nodes) && PolicyGuarded(nodes)
    ensures SessionGuarded(nodes, gate) && ApprovalMarked(nodes)
  {
    RankedIsExecutable(nodes);
    RankedTexts(nodes);
    UniqueHttp(nodes);
    PlanIsGuarded(nodes);
    PlanIsGated(nodes, gate);
    MarkedForApproval(nodes);
  }

  lemma MarkedForApproval(nodes: seq<PlanNode>)
    requires Shaped(nodes)
    ensures ApprovalMarked(nodes)
  {
    forall n | n in nodes && (n.id == AuthForm || (n.id == Http && n.capability == "http_post"))
      ensures n.requiresApproval && n.retries == 0 && (n.id == AuthForm ==> n.capability == "form_submit")
    {
      assert NodeOk(n);
    }
  }
}
