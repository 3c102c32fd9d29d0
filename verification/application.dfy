/**
 * `monitoring-python/application.py`: the cursor-paging iterator over an
 * index, and the application object whose requests all go below
 * `/applications/<safe(name)>`.
 *
 * The index's `browse_from(params, cursor, request_options)` call is the
 * function `source` of the cursor (params and options stay fixed for one
 * iterator).  The application's client is the client of `client.py`, whose
 * `_req` takes its arguments in the order `Application._req` passes them; a
 * request method returns the `Request` handed to that client's transport.
 */
module Applications {
  import opened PyValues
  import opened Helpers
  import opened Requests
  import LegacyClient

  // ---------------------------------------------------------------------
  // Cursor paging
  // ---------------------------------------------------------------------

  /** One `browse_from` answer: its `'hits'`, and its `'cursor'` if the key is there. */
  datatype Page<H> = Page(hits: seq<H>, cursor: Option<string>)

  /** Python truthiness of the cursor: None and '' both end the iteration. */
  predicate CursorSet(c: Option<string>) {
    c.Some? && c.value != ""
  }

  function Flatten<H>(pages: seq<Page<H>>): seq<H> {
    if pages == [] then [] else pages[0].hits + Flatten(pages[1..])
  }

  /** `pages` is what `source` serves when it is followed from `pages[0]` cursor by cursor:
      every page but the last carries a cursor that fetches the next one, the last none. */
  ghost predicate IsChain<H>(source: Option<string> -> Page<H>, pages: seq<Page<H>>) {
    && |pages| > 0
    && (forall i :: 0 <= i < |pages| - 1 ==> CursorSet(pages[i].cursor) && pages[i + 1] == source(pages[i].cursor))
    && !CursorSet(pages[|pages| - 1].cursor)
  }

  lemma ConsTail<H>(s: seq<H>, i: nat, f: seq<H>)
    requires i < |s|
    ensures s[i..] + f == [s[i]] + (s[i + 1..] + f)
  {
    assert s[i..] == [s[i]] + s[i + 1..];
  }

  class IndexIterator<H> {
    /** `index.browse_from(params, ·, request_options)`. */
    const source: Option<string> -> Page<H>
    var answer: Page<H>
    var pos: nat
    var cursor: Option<string>

    /** The pages from the current one to the last one. */
    ghost var chain: seq<Page<H>>
    /** Every hit of the iteration, and the hits returned so far. */
    ghost var hits: seq<H>
    ghost var yielded: seq<H>

    /** The hits not returned yet: the rest of this page, then every later page. */
    ghost function Remaining(): seq<H>
      reads this
      requires pos <= |answer.hits| && |chain| > 0
    {
      answer.hits[pos..] + Flatten(chain[1..])
    }

    ghost predicate Valid()
      reads this
    {
      && pos <= |answer.hits|
      && cursor == answer.cursor
      && IsChain(source, chain) && chain[0] == answer
      && yielded + Remaining() == hits
    }

    /** `IndexIterator(index, params, cursor, request_options)`: no page is loaded yet. */
    constructor(source: Option<string> -> Page<H>, cursor: Option<string>)
      ensures this.source == source && this.cursor == cursor
    {
      this.source := source;
      this.cursor := cursor;
    }

    /** `_load_next_page`: fetch the page the cursor names, start at its first hit and take
        over its cursor (None when the answer has none). */
    method LoadNextPage()
      modifies this`answer, this`pos, this`cursor
      ensures answer == source(old(cursor)) && pos == 0 && cursor == answer.cursor
    {
      answer := source(cursor);
      pos := 0;
      cursor := answer.cursor;
    }

    /** `__iter__`, for a cursor from which `source` serves the finite chain `pages`. */
    method Iter(ghost pages: seq<Page<H>>)
      requires IsChain(source, pages) && pages[0] == source(cursor)
      modifies this
      ensures answer == source(old(cursor)) && pos == 0 && cursor == answer.cursor
      ensures Valid() && hits == Flatten(pages) && yielded == [] && Remaining() == hits
    {
      LoadNextPage();
      chain := pages;
      hits := Flatten(pages);
      yielded := [];
      assert answer.hits[0..] == answer.hits;
    }

    /** The `continue` branch of `next`'s `while True` loop, repeated: while the current page
        is used up and the cursor is set, load the next page.  No hit is skipped or returned. */
    method SkipUsedPages()
      requires Valid()
      modifies this`answer, this`pos, this`cursor, this`chain
      ensures Valid() && Remaining() == old(Remaining())
      ensures pos < |answer.hits| || (pos == |answer.hits| && !CursorSet(cursor))
      ensures old(pos) < |old(answer.hits)| ==>
        answer == old(answer) && pos == old(pos) && cursor == old(cursor)
    {
      while pos == |answer.hits| && CursorSet(cursor)
        invariant Valid() && Remaining() == old(Remaining())
        invariant old(pos) < |old(answer.hits)| ==>
          answer == old(answer) && pos == old(pos) && cursor == old(cursor)
        decreases |chain|
      {
        assert |chain| > 1;
        ghost var later := chain[1..];
        assert Flatten(chain[1..]) == later[0].hits + Flatten(later[1..]);
        LoadNextPage();
        chain := later;
        assert answer.hits[0..] == answer.hits;
      }
    }

    /** `next`: the next hit, loading pages (empty ones included) while the current page is
        used up and the cursor is set; `None` is `StopIteration`. */
    method Next() returns (r: Option<H>)
      requires Valid()
      modifies this`answer, this`pos, this`cursor, this`chain, this`yielded
      ensures Valid() && hits == old(hits)
      ensures r.None? <==> old(Remaining()) == []
      ensures r.Some? ==> r.value == old(Remaining())[0] && Remaining() == old(Remaining())[1..]
      ensures r.Some? ==> 1 <= pos && answer.hits[pos - 1] == r.value
      ensures r.Some? ==> yielded == old(yielded) + [r.value]
      ensures r.None? ==> yielded == hits && pos == |answer.hits| && !CursorSet(cursor)
      ensures old(pos) < |old(answer.hits)| ==>
        && r == Some(old(answer.hits)[old(pos)])
        && answer == old(answer) && cursor == old(cursor) && pos == old(pos) + 1
    {
      SkipUsedPages();
      if pos < |answer.hits| {
        ConsTail(answer.hits, pos, Flatten(chain[1..]));
        pos := pos + 1;
        r := Some(answer.hits[pos - 1]);
        yielded := yielded + [r.value];
      } else {
        assert |chain| == 1;
        r := None;
      }
    }
  }

  // ---------------------------------------------------------------------
  // Application paths
  // ---------------------------------------------------------------------

  /** `'/applications/%s' % safe(application_name)`: the name is one escaped segment. */
  function RequestPath(applicationName: string): (r: string)
    ensures "/applications/" <= r
    ensures '/' !in r[|"/applications/"|..] && WellEscaped(r[|"/applications/"|..])
    ensures PercentDecode(r[|"/applications/"|..]) == Utf8(applicationName)
  {
    SafeDecodes(applicationName);
    "/applications/" + Safe(applicationName)
  }

  /** `'/%s' % safe(model_name)`: a slash, then the name as one escaped segment. */
  function ModelPath(modelName: string): (r: string)
    ensures |r| >= 1 && r[0] == '/'
    ensures '/' !in r[1..] && WellEscaped(r[1..])
    ensures PercentDecode(r[1..]) == Utf8(modelName)
  {
    SafeDecodes(modelName);
    "/" + Safe(modelName)
  }

  /** A slash-free segment cannot be a proper prefix of another one before a slash. */
  lemma ShorterSegmentDiffers(s1: string, t1: string, s2: string, t2: string)
    ensures '/' !in s2 && |s1| < |s2| ==> s1 + "/" + t1 != s2 + "/" + t2
  {
    if '/' !in s2 && |s1| < |s2| {
      assert (s1 + "/" + t1)[|s1|] == '/';
      assert (s2 + "/" + t2)[|s1|] == s2[|s1|];
    }
  }

  lemma SplitAtSlash(s1: string, t1: string, s2: string, t2: string)
    requires '/' !in s1 && '/' !in s2
    requires s1 + "/" + t1 == s2 + "/" + t2
    ensures s1 == s2 && t1 == t2
  {
    var x := s1 + "/" + t1;
    ShorterSegmentDiffers(s1, t1, s2, t2);
    ShorterSegmentDiffers(s2, t2, s1, t1);
    assert s1 == x[..|s1|] == s2;
    assert t1 == x[|s1| + 1..] == t2;
  }

  lemma PathShape(app: string, model: string)
    ensures RequestPath(app) + ModelPath(model) == "/applications/" + (Safe(app) + "/" + Safe(model))
  {
  }

  lemma DropPrefix(p: string, u: string, v: string)
    requires p + u == p + v
    ensures u == v
  {
    assert u == (p + u)[|p|..];
  }

  /** Model paths are unambiguous: two (application, model) pairs share a path exactly when
      they are the same pair, whatever the names contain. */
  lemma ModelPathsDistinct(app1: string, model1: string, app2: string, model2: string)
    ensures RequestPath(app1) + ModelPath(model1) == RequestPath(app2) + ModelPath(model2)
            <==> app1 == app2 && model1 == model2
  {
    if RequestPath(app1) + ModelPath(model1) == RequestPath(app2) + ModelPath(model2) {
      PathShape(app1, model1);
      PathShape(app2, model2);
      DropPrefix("/applications/", Safe(app1) + "/" + Safe(model1), Safe(app2) + "/" + Safe(model2));
      SplitAtSlash(Safe(app1), Safe(model1), Safe(app2), Safe(model2));
      SafeInjective(app1, app2);
      SafeInjective(model1, model2);
    }
  }

  const EmptyModelName := MonitoringException("model_name cannot be empty")

  class Application {
    const client: LegacyClient.Client
    const applicationName: string
    const requestPath: string := RequestPath(applicationName)

    /** `Application(client, application_name)`. */
    constructor(client: LegacyClient.Client, applicationName: string)
      ensures this.client == client && this.applicationName == applicationName
      ensures requestPath == RequestPath(applicationName)
    {
      this.client := client;
      this.applicationName := applicationName;
    }

    /** `_req`: the client's request, with the sub-path put after the application's path. */
    method Req(isSearch: bool, path: string, meth: string, params: Option<map<string, Value>>, data: PyDict?)
      returns (request: Request)
      modifies data
      ensures request == Request(isSearch, requestPath + path, meth, params,
                                 WithApiKey(client.apiKey, old(Contents(data))))
      ensures data != null ==> Contents(data) == request.data
    {
      request := client.Req(isSearch, requestPath + path, meth, params, data);
    }

    /** `add_model(model_name, model_label, model_description, model_version)`: PUT on the
        model's path with a new dict of the four fields. */
    method AddModel(modelName: string, modelLabel: Value, modelDescription: Value, modelVersion: Value)
      returns (request: Request)
      ensures !request.isSearch && request.meth == "PUT" && request.params.None?
      ensures request.path == RequestPath(applicationName) + ModelPath(modelName)
      ensures request.data == WithApiKey(client.apiKey, Some(map[
        "model_name" := VStr(modelName), "model_label" := modelLabel,
        "model_description" := modelDescription, "model_version" := modelVersion]))
    {
      var data := new PyDict(map[
        "model_name" := VStr(modelName), "model_label" := modelLabel,
        "model_description" := modelDescription, "model_version" := modelVersion]);
      request := Req(false, ModelPath(modelName), "PUT", None, data);
    }

    /** `get_model(model_name)`: a search-host GET on the model's path, without a body
        (unless the key is long).  An empty name is not refused here. */
    method GetModel(modelName: string) returns (request: Request)
      ensures request.isSearch && request.meth == "GET" && request.params.None?
      ensures request.path == RequestPath(applicationName) + ModelPath(modelName)
      ensures request.data == WithApiKey(client.apiKey, None)
    {
      request := Req(true, ModelPath(modelName), "GET", None, null);
    }

    /** `delete_model(model_name)`: an empty name raises before any request is made. */
    method DeleteModel(modelName: string) returns (r: Result<Request, PyError>)
      ensures r.Err? <==> modelName == ""
      ensures r.Err? ==> r.error == EmptyModelName
      ensures r.Ok? ==> !r.value.isSearch && r.value.meth == "DELETE" && r.value.params.None?
      ensures r.Ok? ==> r.value.path == RequestPath(applicationName) + ModelPath(modelName)
      ensures r.Ok? ==> r.value.data == WithApiKey(client.apiKey, None)
    {
      if modelName == "" {
        return Err(EmptyModelName);
      }
      var request := Req(false, ModelPath(modelName), "DELETE", None, null);
      r := Ok(request);
    }

    /** `select_model(model_name)`: as written, the same guard and the same DELETE request
        as `delete_model`. */
    method SelectModel(modelName: string) returns (r: Result<Request, PyError>)
      ensures r.Err? <==> modelName == ""
      ensures r.Err? ==> r.error == EmptyModelName
      ensures r.Ok? ==> !r.value.isSearch && r.value.meth == "DELETE" && r.value.params.None?
      ensures r.Ok? ==> r.value.path == RequestPath(applicationName) + ModelPath(modelName)
      ensures r.Ok? ==> r.value.data == WithApiKey(client.apiKey, None)
    {
      r := DeleteModel(modelName);
    }
  }
}
