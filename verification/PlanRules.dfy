/** What the planner's selections mean, told by the request's outputs and target alone. */
module PlanRules {
  import opened Common
  import opened Plan
  import opened PlanText
  import opened Planner

  // ---- Requested outputs -------------------------------------------------------------------

  /** Something of the table was requested. */
  ghost predicate Asks(outputs: seq<string>, table: seq<string>) {
    exists c :: c in outputs && c in table
  }

  lemma PickAsks(table: seq<string>, outputs: seq<string>)
    ensures Pick(table, outputs) != [] <==> Asks(outputs, table)
  {
    if Pick(table, outputs) != [] {
      assert Pick(table, outputs)[0] in Pick(table, outputs);
    }
  }

  /** A selection follows its table: that of a table in two parts is that of the one and then that of the other. */
  lemma {:induction false} PickInOrder(front: seq<string>, back: seq<string>, outputs: seq<string>)
    ensures Pick(front + back, outputs) == Pick(front, outputs) + Pick(back, outputs)
    decreases |front|
  {
    if front == [] {
      assert front + back == back;
    } else {
      assert (front + back)[1..] == front[1..] + back;
      PickInOrder(front[1..], back, outputs);
    }
  }

  ghost predicate NamedBy(registry: Registry, outputs: seq<string>, name: string) {
    exists o :: o in outputs && Names(registry, o, name)
  }

  /** What was requested, under the names the registry knows, each once. */
  lemma {:induction false} CanonicalTells(registry: Registry, outputs: seq<string>)
    ensures var names := Canonical(registry, outputs);
            && (forall i, j :: 0 <= i < j < |names| ==> names[i] != names[j])
            && (forall name :: name in names <==> NamedBy(registry, outputs, name))
    decreases |outputs|
  {
    if outputs != [] {
      var front, last := outputs[..|outputs| - 1], outputs[|outputs| - 1];
      CanonicalTells(registry, front);
      forall name ensures NamedBy(registry, outputs, name) <==> NamedBy(registry, front, name) || Names(registry, last, name) {
        NamedByLast(registry, front, last, name);
        assert outputs == front + [last];
      }
      CanonicalLast(registry, outputs);
    }
  }

  lemma NamedByLast(registry: Registry, front: seq<string>, last: string, name: string)
    ensures NamedBy(registry, front + [last], name) <==> NamedBy(registry, front, name) || Names(registry, last, name)
  {
    if NamedBy(registry, front + [last], name) {
      var o :| o in front + [last] && Names(registry, o, name);
    }
    if NamedBy(registry, front, name) {
      var o :| o in front && Names(registry, o, name);
      assert o in front + [last];
    }
    assert last in front + [last];
  }

  lemma CanonicalLast(registry: Registry, outputs: seq<string>)
    requires outputs != []
    ensures var front, last := Canonical(registry, outputs[..|outputs| - 1]), outputs[|outputs| - 1];
            var names := Canonical(registry, outputs);
            && (forall name :: name in names <==> name in front || Names(registry, last, name))
            && (names == front || (|names| == |front| + 1 && front <= names && names[|front|] !in front))
  {
  }

  /** An output that the registry does not know keeps its name. */
  predicate Names(registry: Registry, output: string, name: string) {
    if output in registry.ids || output in registry.aliases then Known(registry, output, name) else name == output
  }

  // ---- The family of a target --------------------------------------------------------------

  /** Nothing but cache strategies is wanted. */
  ghost predicate CachesOnly(outputs: seq<string>) {
    outputs != [] && forall c :: c in outputs ==> c in CACHE_CAPABILITIES
  }

  /** No capability of a content family is asked for, and no API is known. */
  ghost predicate NoFamily(namedApi: Option<string>, outputs: seq<string>) {
    !Asks(outputs, DOCUMENT_CAPABILITIES) && !Asks(outputs, MEDIA_CAPABILITIES) && !Asks(outputs, API_CAPABILITIES) && namedApi.None?
  }

  ghost predicate LooksLikeDocument(suffix: string, outputs: seq<string>) {
    suffix in DOCUMENT_SUFFIXES || Asks(outputs, DOCUMENT_NAMES)
  }

  ghost predicate LooksLikeMedia(suffix: string, outputs: seq<string>) {
    || suffix in IMAGE_SUFFIXES || suffix in AUDIO_SUFFIXES || suffix in VIDEO_SUFFIXES
    || Asks(outputs, MEDIA_NAMES)
  }

  ghost predicate LooksLikeArchive(suffix: string, outputs: seq<string>) {
    suffix in ARCHIVE_SUFFIXES || "archive" in outputs
  }

  ghost predicate LooksLikeData(suffix: string, outputs: seq<string>) {
    suffix in DATA_SUFFIXES || Asks(outputs, DATA_NAMES)
  }

  /**
   When a target belongs to which family.  Capabilities that were asked for decide before the suffix and
   the loose names do, and documents before media before APIs before archives.
   */
  lemma ClassifyTells(suffix: string, namedApi: Option<string>, outputs: seq<string>)
    ensures var f := Classify(suffix, namedApi, outputs);
            var plain := !CachesOnly(outputs) && NoFamily(namedApi, outputs);
            && (f == CacheOnly <==> CachesOnly(outputs))
            && (f == DocumentFamily <==>
                  && !CachesOnly(outputs)
                  && (|| (Asks(outputs, DOCUMENT_CAPABILITIES) && "zip_archive" !in outputs)
                      || (plain && LooksLikeDocument(suffix, outputs))))
            && (f == MediaFamily <==>
                  && !CachesOnly(outputs)
                  && (|| (Asks(outputs, MEDIA_CAPABILITIES) && !Asks(outputs, DOCUMENT_CAPABILITIES))
                      || (plain && LooksLikeMedia(suffix, outputs) && !LooksLikeDocument(suffix, outputs))))
            && (f == ArchiveFamily <==>
                  && !CachesOnly(outputs)
                  && (|| "zip_archive" in outputs
                      || (plain && LooksLikeArchive(suffix, outputs)
                          && !LooksLikeDocument(suffix, outputs) && !LooksLikeMedia(suffix, outputs))))
            && (f == ApiFamily <==>
                  && !CachesOnly(outputs) && !Asks(outputs, DOCUMENT_CAPABILITIES) && !Asks(outputs, MEDIA_CAPABILITIES)
                  && (|| Asks(outputs, API_CAPABILITIES) || namedApi.Some?
                      || (&& LooksLikeData(suffix, outputs) && !LooksLikeDocument(suffix, outputs)
                          && !LooksLikeMedia(suffix, outputs) && !LooksLikeArchive(suffix, outputs))))
            && (f == Web <==>
                  && plain && !LooksLikeDocument(suffix, outputs) && !LooksLikeMedia(suffix, outputs)
                  && !LooksLikeArchive(suffix, outputs) && !LooksLikeData(suffix, outputs))
  {
    ZipIsDocument(outputs);
    ClassifyInOrder(suffix, namedApi, outputs);
  }

  /** The same as a chain of questions. */
  lemma ClassifyInOrder(suffix: string, namedApi: Option<string>, outputs: seq<string>)
    ensures Classify(suffix, namedApi, outputs) ==
            if CachesOnly(outputs) then CacheOnly
            else if Asks(outputs, DOCUMENT_CAPABILITIES) then (if "zip_archive" in outputs then ArchiveFamily else DocumentFamily)
            else if Asks(outputs, MEDIA_CAPABILITIES) then MediaFamily
            else if Asks(outputs, API_CAPABILITIES) || namedApi.Some? then ApiFamily
            else if LooksLikeDocument(suffix, outputs) then DocumentFamily
            else if LooksLikeMedia(suffix, outputs) then MediaFamily
            else if LooksLikeArchive(suffix, outputs) then ArchiveFamily
            else if LooksLikeData(suffix, outputs) then ApiFamily
            else Web
  {
    AskedTables(outputs);
    LooseNames(suffix, outputs);
  }

  lemma ZipIsDocument(outputs: seq<string>)
    ensures "zip_archive" in outputs ==> Asks(outputs, DOCUMENT_CAPABILITIES)
  {
    assert "zip_archive" in DOCUMENT_CAPABILITIES;
  }

  lemma LooseNames(suffix: string, outputs: seq<string>)
    ensures suffix in DOCUMENT_SUFFIXES || Pick(DOCUMENT_NAMES, outputs) != [] <==> LooksLikeDocument(suffix, outputs)
    ensures suffix in IMAGE_SUFFIXES + AUDIO_SUFFIXES + VIDEO_SUFFIXES || Pick(MEDIA_NAMES, outputs) != [] <==>
              LooksLikeMedia(suffix, outputs)
    ensures suffix in DATA_SUFFIXES || Pick(DATA_NAMES, outputs) != [] <==> LooksLikeData(suffix, outputs)
  {
    PickAsks(DOCUMENT_NAMES, outputs);
    PickAsks(MEDIA_NAMES, outputs);
    PickAsks(DATA_NAMES, outputs);
    Members(IMAGE_SUFFIXES, AUDIO_SUFFIXES, VIDEO_SUFFIXES, suffix);
  }

  lemma Members(a: seq<string>, b: seq<string>, c: seq<string>, x: string)
    ensures x in a + b + c <==> x in a || x in b || x in c
  {
  }

  lemma AskedTables(outputs: seq<string>)
    ensures Pick(DOCUMENT_CAPABILITIES, outputs) != [] <==> Asks(outputs, DOCUMENT_CAPABILITIES)
    ensures Pick(MEDIA_CAPABILITIES, outputs) != [] <==> Asks(outputs, MEDIA_CAPABILITIES)
    ensures Pick(API_CAPABILITIES, outputs) != [] <==> Asks(outputs, API_CAPABILITIES)
    ensures Pick(CACHE_CAPABILITIES, outputs) != [] && (forall c :: c in outputs ==> c in CACHE_CAPABILITIES) <==> CachesOnly(outputs)
  {
    PickAsks(DOCUMENT_CAPABILITIES, outputs);
    PickAsks(MEDIA_CAPABILITIES, outputs);
    PickAsks(API_CAPABILITIES, outputs);
    PickAsks(CACHE_CAPABILITIES, outputs);
    if CachesOnly(outputs) {
      assert outputs[0] in outputs;
    }
  }

  // ---- What is selected --------------------------------------------------------------------

  const HTTP_REQUESTS := ["http_head", "http_post", "browser_header_http", "range_request"]

  /** `c` is requested, and nothing before it in the table is. */
  ghost predicate FirstOf(table: seq<string>, outputs: seq<string>, c: string) {
    exists i :: 0 <= i < |table| && table[i] == c && c in outputs && forall j :: 0 <= j < i ==> table[j] !in outputs
  }

  lemma {:induction false} PickFirst(table: seq<string>, outputs: seq<string>)
    ensures Pick(table, outputs) != [] ==> FirstOf(table, outputs, Pick(table, outputs)[0])
    decreases |table|
  {
    if table != [] {
      if table[0] in outputs {
        assert table[0] == Pick(table, outputs)[0];
      } else if Pick(table, outputs) != [] {
        PickFirst(table[1..], outputs);
        var i :| 0 <= i < |table[1..]| && table[1..][i] == Pick(table, outputs)[0]
                 && forall j :: 0 <= j < i ==> table[1..][j] !in outputs;
        assert table[i + 1] == table[1..][i];
        assert forall j :: 0 < j < i + 1 ==> table[j] == table[1..][j - 1];
      }
    }
  }

  /** The HTTP operation is the first requested one of four, in their order, and a plain GET without any. */
  lemma HttpTells(outputs: seq<string>)
    ensures Asks(outputs, HTTP_REQUESTS) ==> FirstOf(HTTP_REQUESTS, outputs, HttpCapability(outputs))
    ensures !Asks(outputs, HTTP_REQUESTS) ==> HttpCapability(outputs) == "http_get"
  {
    PickAsks(HTTP_REQUESTS, outputs);
    PickFirst(HTTP_REQUESTS, outputs);
  }

  /** A post is made exactly if one is requested and no HEAD is. */
  lemma PostTells(outputs: seq<string>)
    ensures HttpCapability(outputs) == "http_post" <==> "http_post" in outputs && "http_head" !in outputs
  {
    HttpTells(outputs);
    var t := HTTP_REQUESTS;
    assert t[0] == "http_head" && t[1] == "http_post";
    assert t[0] != t[1] && t[2] != t[1] && t[3] != t[1] && "http_get" != t[1];
    if "http_post" in outputs {
      assert t[1] in t;
    }
  }

  /** The browser engine is the first requested one, and the default without any. */
  lemma EngineTells(outputs: seq<string>)
    ensures Asks(outputs, BROWSER_ENGINES) ==> FirstOf(BROWSER_ENGINES, outputs, Engine(outputs))
    ensures !Asks(outputs, BROWSER_ENGINES) ==> Engine(outputs) == "playwright"
  {
    PickAsks(BROWSER_ENGINES, outputs);
    PickFirst(BROWSER_ENGINES, outputs);
  }

  /** Exactly the requested readers, and two of them without any. */
  lemma ReadersTell(outputs: seq<string>)
    ensures Asks(outputs, READER_CAPABILITIES) ==>
              forall c :: c in ReaderSelection(outputs) <==> c in READER_CAPABILITIES && c in outputs
    ensures !Asks(outputs, READER_CAPABILITIES) ==> ReaderSelection(outputs) == ["clean_text", "main_article"]
  {
    PickAsks(READER_CAPABILITIES, outputs);
  }

  /** Exactly the requested extractors but the archive's, and one by the suffix without any. */
  lemma DocumentsTell(suffix: string, outputs: seq<string>)
    ensures var asked := exists c :: c in outputs && c in DOCUMENT_CAPABILITIES && c != "zip_archive";
            && (asked ==> forall c :: c in DocumentSelection(suffix, outputs) <==>
                            c in DOCUMENT_CAPABILITIES && c != "zip_archive" && c in outputs)
            && (!asked ==> DocumentSelection(suffix, outputs) == [DocumentCapability(suffix)])
  {
    var table := DOCUMENT_CAPABILITIES[..10] + DOCUMENT_CAPABILITIES[11..];
    forall c ensures c in table <==> c in DOCUMENT_CAPABILITIES && c != "zip_archive" {
      DocumentsApart(c);
    }
    PickAsks(table, outputs);
  }

  lemma DocumentsApart(c: string)
    ensures c in DOCUMENT_CAPABILITIES[..10] + DOCUMENT_CAPABILITIES[11..] <==> c in DOCUMENT_CAPABILITIES && c != "zip_archive"
  {
    var all := DOCUMENT_CAPABILITIES;
    assert all[10] == "zip_archive" && all == all[..10] + [all[10]] + all[11..];
    assert "zip_archive" !in all[..10] && "zip_archive" !in all[11..];
  }

  /** Exactly the requested media capabilities, and one by the suffix without any. */
  lemma MediaTell(suffix: string, outputs: seq<string>)
    ensures Asks(outputs, MEDIA_CAPABILITIES) ==>
              forall c :: c in MediaSelection(suffix, outputs) <==> c in MEDIA_CAPABILITIES && c in outputs
    ensures !Asks(outputs, MEDIA_CAPABILITIES) ==>
              MediaSelection(suffix, outputs) == [if suffix in IMAGE_SUFFIXES then "image_metadata"
                                                  else if suffix in AUDIO_SUFFIXES then "audio_metadata" else "video_metadata"]
  {
    PickAsks(MEDIA_CAPABILITIES, outputs);
  }

  /** What the cache lookups and the acquisition wait for: the requested session, or the policy without any. */
  lemma GateTells(outputs: seq<string>)
    ensures !Asks(outputs, SESSIONS) ==> Gate(outputs) == Policy
    ensures forall s :: s in SESSIONS && s in outputs && |Pick(SESSIONS, outputs)| <= 1 ==> Gate(outputs) == AuthSession(s)
  {
    PickAsks(SESSIONS, outputs);
    forall s | s in SESSIONS && s in outputs && |Pick(SESSIONS, outputs)| <= 1 ensures Gate(outputs) == AuthSession(s) {
      assert s in Pick(SESSIONS, outputs);
    }
  }

  /** More than one session is requested exactly if two of the table are. */
  lemma {:induction false} PickCounts(table: seq<string>, outputs: seq<string>)
    requires forall i, j :: 0 <= i < j < |table| ==> table[i] != table[j]
    ensures |Pick(table, outputs)| > 1 <==> exists a, b :: a != b && a in table && b in table && a in outputs && b in outputs
    decreases |table|
  {
    if table != [] {
      var first, rest := table[0], table[1..];
      assert forall c :: c in table <==> c == first || c in rest;
      assert first !in rest;
      PickCounts(rest, outputs);
      PickAsks(rest, outputs);
    }
  }

  /** A lookup is made exactly if it is permitted and requested, or a search cache needs it and no search was requested. */
  lemma LookupsTell(registry: Registry, request: Request, outputs: seq<string>, c: string)
    ensures c in Lookups(registry, request, outputs) <==>
              && c in PRE_CACHE && Admits(registry, request, c)
              && (|| c in outputs
                  || (&& c == "search_engine_cache_adapter"
                      && ("search_snippet_cache" in outputs || "search_cache" in outputs)
                      && "alternate_search_cache_adapter" !in outputs))
  {
    PermittedIsAdmitted(registry, request, c);
    SearchNames();
    var requested := Pick(CACHE_CAPABILITIES, outputs);
    assert c in PRE_CACHE ==> (c in requested <==> c in outputs) by {
      LookupIsCache(c);
    }
  }

  lemma SearchNames()
    ensures "search_snippet_cache" in CACHE_CAPABILITIES && "search_cache" in CACHE_CAPABILITIES
    ensures "search_engine_cache_adapter" in CACHE_CAPABILITIES && "alternate_search_cache_adapter" in CACHE_CAPABILITIES
  {
  }

  lemma LookupIsCache(c: string)
    ensures c in PRE_CACHE ==> c in CACHE_CAPABILITIES
  {
  }
}
