/** The analysis orchestrator of the page (`App`): the session state, the
    request `runAnalysis` sends, how it classifies the reply, and the
    single-slot debounced re-run that follows a change of the uploaded file. */
module App {
  import opened Wrappers
  import opened Text
  import opened JsValues
  import opened Http

  type Params = seq<(string, string)>

  /** Delay of the automatic re-run after the dataset changes. */
  const RerunDelay: int := 250

  const NonJsonErrorPrefix := "Server error (non-JSON): "
  const NonJsonSuccessPrefix := "Server did not return JSON: "

  /** The query `runAnalysis` sends, as name/value pairs in the order
      `URLSearchParams` receives them. */
  function RequestParams(q: string, useLLM: bool, filePath: JsValue): Params {
    [("query", q), ("top", "200"), ("use_llm", if useLLM then "true" else "false")]
      + (if Truthy(filePath) then [("file", ToStr(filePath))] else [])
  }

  predicate HasParam(ps: Params, name: string) {
    exists i :: 0 <= i < |ps| && ps[i].0 == name
  }

  /** The request names exactly query, top, use_llm and, only for a truthy
      dataset path, file. */
  lemma RequestParamNames(q: string, useLLM: bool, filePath: JsValue, name: string)
    ensures HasParam(RequestParams(q, useLLM, filePath), name)
      <==> name == "query" || name == "top" || name == "use_llm" || (name == "file" && Truthy(filePath))
  {
    var ps := RequestParams(q, useLLM, filePath);
    if name == "file" && Truthy(filePath) {
      assert ps[3].0 == "file";
    }
    assert ps[0].0 == "query" && ps[1].0 == "top" && ps[2].0 == "use_llm";
  }

  /** What one completed `runAnalysis` leaves: a result, or an error message. */
  datatype Outcome = Loaded(data: Json) | Failed(message: JsValue)

  /** The response handling of `runAnalysis`. */
  function Classify(ex: Exchange): (o: Outcome)
    ensures ex.Threw? ==> o == Failed(Str(Describe(ex.error)))
    ensures ex.Responded? && !IsOk(ex.resp) && !DeclaresJson(ex.resp) ==>
      o.Failed? && o.message.Str? && IsPreview(o.message.s, NonJsonErrorPrefix, ex.resp.text, 400)
    ensures ex.Responded? && IsOk(ex.resp) && !DeclaresJson(ex.resp) ==>
      o.Failed? && o.message.Str? && IsPreview(o.message.s, NonJsonSuccessPrefix, ex.resp.text, 300)
    ensures ex.Responded? && DeclaresJson(ex.resp) && ex.resp.json.Err? ==>
      o == Failed(Str(Describe(ex.resp.json.error)))
    ensures o.Loaded? <==> ex.Responded? && IsOk(ex.resp) && DeclaresJson(ex.resp) && ex.resp.json.Ok?
    ensures o.Loaded? ==> o.data == ex.resp.json.value
  {
    match ex
    case Threw(e) => Failed(Str(Describe(e)))
    case Responded(r) =>
      if !IsOk(r) then
        if DeclaresJson(r) then
          match r.json
          case Err(e) => Failed(Str(Describe(e)))
          case Ok(j) =>
            match ReadProperty(j, "error")
            case Err(e) => Failed(Str(Describe(e)))
            case Ok(err) => Failed(Or(err, Str(Stringify(j))))
        else Failed(Str(NonJsonErrorPrefix + Take(r.text, 400)))
      else if !DeclaresJson(r) then
        Failed(Str(NonJsonSuccessPrefix + Take(r.text, 300)))
      else
        match r.json
        case Err(e) => Failed(Str(Describe(e)))
        case Ok(j) => Loaded(j)
  }

  /** A failed status with a JSON body: a `null` body makes `j.error`
      throw, whose text is then the message; otherwise the body's truthy
      `error` field is the message, and failing that the body's JSON text,
      which is all an array, string, number or boolean body can give. */
  lemma StructuredError(r: HttpResponse, j: Json)
    requires !IsOk(r) && DeclaresJson(r) && r.json == Ok(j)
    ensures j == Null ==> Classify(Responded(r)) == Failed(Str(Describe(NullPropertyError("error"))))
    ensures j != Null && Truthy(Get(j, "error")) ==> Classify(Responded(r)) == Failed(Get(j, "error"))
    ensures j != Null && !Truthy(Get(j, "error")) ==> Classify(Responded(r)) == Failed(Str(Stringify(j)))
    ensures j != Null && !j.Obj? ==> Classify(Responded(r)) == Failed(Str(Stringify(j)))
    ensures j.Obj? && !Truthy(Get(j, "error")) ==> Stringify(j)[0] == '{'
  {
  }

  /** Every failure the server causes yields a visible (truthy) message; only
      an exception whose message and string form are both empty does not. */
  lemma FailureIsVisible(ex: Exchange)
    requires Classify(ex).Failed?
    ensures !Truthy(Classify(ex).message) ==>
      (ex.Threw? && Describe(ex.error) == "")
      || (ex.Responded? && ex.resp.json.Err? && Describe(ex.resp.json.error) == "")
  {
    match ex
    case Threw(_) =>
    case Responded(r) =>
      if !IsOk(r) && DeclaresJson(r) && r.json.Ok? && r.json.value != Null {
        var j := r.json.value;
        assert |Stringify(j)| > 0;
      }
  }

  /** The state `runAnalysis` leaves for an outcome. */
  function ResultAfter(o: Outcome): JsValue {
    if o.Loaded? then o.data else Null
  }

  function ErrorAfter(o: Outcome): JsValue {
    if o.Failed? then o.message else Str("")
  }

  /** A completed run never shows a result and an error together. */
  lemma OutcomeExclusive(o: Outcome)
    ensures !(Truthy(ResultAfter(o)) && Truthy(ErrorAfter(o)))
  {
  }

  /** The re-run the effect scheduled: when it is due and the closure it was
      created in, whose query, LLM flag and dataset path it will use. */
  datatype Pending = Pending(due: int, query: string, useLLM: bool, filePath: JsValue)

  /** `Object.is` on the values `onUpload` hands over: primitives compare by
      value, while every parsed array or object is a fresh one. */
  predicate SameValue(a: JsValue, b: JsValue) {
    !a.Arr? && !a.Obj? && a == b
  }

  class Analyzer {
    var filePath: JsValue
    var query: string
    var useLLM: bool
    var loading: bool
    var result: JsValue
    var errorMsg: JsValue
    /** The one timer the effect may have pending. */
    var pending: Option<Pending>

    /** Between events: nothing is loading, a result and an error are never
        shown together, and a pending re-run belongs to the current dataset
        and carries a non-empty query. */
    ghost predicate Valid()
      reads this
    {
      && !loading
      && !(Truthy(result) && Truthy(errorMsg))
      && (pending.Some? ==>
            Truthy(filePath) && pending.value.filePath == filePath && pending.value.query != "")
    }

    /** The state while a request is in flight. */
    ghost predicate InFlight()
      reads this
    {
      && loading && errorMsg == Str("") && result == Null
      && (pending.Some? ==>
            Truthy(filePath) && pending.value.filePath == filePath && pending.value.query != "")
    }

    constructor ()
      ensures Valid()
      ensures filePath == Null && query == "" && !useLLM && !loading
      ensures result == Null && errorMsg == Str("") && pending == None
    {
      filePath, query, useLLM, loading := Null, "", false, false;
      result, errorMsg, pending := Null, Str(""), None;
    }

    /** `setQuery`: only the stored query changes; nothing is scheduled. */
    method SetQuery(q: string)
      requires Valid()
      modifies this
      ensures Valid()
      ensures query == q
      ensures filePath == old(filePath) && useLLM == old(useLLM) && pending == old(pending)
      ensures result == old(result) && errorMsg == old(errorMsg) && loading == old(loading)
    {
      query := q;
    }

    /** The LLM switch: only the flag flips; nothing is scheduled. */
    method ToggleLLM()
      requires Valid()
      modifies this
      ensures Valid()
      ensures useLLM == !old(useLLM)
      ensures filePath == old(filePath) && query == old(query) && pending == old(pending)
      ensures result == old(result) && errorMsg == old(errorMsg) && loading == old(loading)
    {
      useLLM := !useLLM;
    }

    /** The synchronous start of `runAnalysis(q)` in a closure that saw `llm`
        and `path`: clear the error, set loading, clear the result, then
        build the request that `fetch` is given. */
    method Start(q: string, llm: bool, path: JsValue) returns (req: Params)
      requires Valid()
      modifies this
      ensures InFlight()
      ensures req == RequestParams(q, llm, path)
      ensures filePath == old(filePath) && query == old(query) && useLLM == old(useLLM)
      ensures pending == old(pending)
    {
      errorMsg := Str("");
      loading := true;
      result := Null;
      req := RequestParams(q, llm, path);
    }

    /** The rest of `runAnalysis` once the request has settled. */
    method Complete(ex: Exchange)
      requires InFlight()
      modifies this
      ensures Valid()
      ensures result == ResultAfter(Classify(ex)) && errorMsg == ErrorAfter(Classify(ex))
      ensures filePath == old(filePath) && query == old(query) && useLLM == old(useLLM)
      ensures pending == old(pending)
    {
      var o := Classify(ex);
      if o.Loaded? {
        result := o.data;
      } else {
        errorMsg := o.message;
      }
      loading := false;
    }

    /** A manual run (the Analyze button): `runAnalysis()` uses the stored
        query, or `runAnalysis(q)` an override that is not stored; `server`
        stands for the backend answering the request. */
    method Analyze(override: Option<string>, server: Params -> Exchange) returns (req: Params)
      requires Valid()
      modifies this
      ensures Valid()
      ensures req == RequestParams(override.GetOr(old(query)), old(useLLM), old(filePath))
      ensures result == ResultAfter(Classify(server(req)))
      ensures errorMsg == ErrorAfter(Classify(server(req)))
      ensures filePath == old(filePath) && query == old(query) && useLLM == old(useLLM)
      ensures pending == old(pending)
    {
      var q := override.GetOr(query);
      req := Start(q, useLLM, filePath);
      Complete(server(req));
    }

    /** `onUpload(path)` followed by the effect keyed on `filePath`: an equal
        value changes nothing; a new one cancels the pending re-run and, when
        both the path and the query are non-empty, schedules one for
        `now + 250` in the current closure. */
    method SetFilePath(path: JsValue, now: int)
      requires Valid()
      modifies this
      ensures Valid()
      ensures SameValue(old(filePath), path) ==> filePath == old(filePath) && pending == old(pending)
      ensures !SameValue(old(filePath), path) ==>
        filePath == path
        && pending == (if Truthy(path) && query != ""
                       then Some(Pending(now + RerunDelay, query, useLLM, path)) else None)
      ensures query == old(query) && useLLM == old(useLLM)
      ensures result == old(result) && errorMsg == old(errorMsg) && loading == old(loading)
    {
      if !SameValue(filePath, path) {
        filePath := path;
        pending := None;
        if Truthy(path) && query != "" {
          pending := Some(Pending(now + RerunDelay, query, useLLM, path));
        }
      }
    }

    /** Time reaches `now`: a due re-run fires `runAnalysis(query)` from the
        closure that scheduled it and the slot empties; otherwise nothing
        happens. */
    method Tick(now: int, server: Params -> Exchange) returns (fired: Option<Params>)
      requires Valid()
      modifies this
      ensures Valid()
      ensures var p := old(pending);
        if p.Some? && p.value.due <= now then
          && fired == Some(RequestParams(p.value.query, p.value.useLLM, p.value.filePath))
          && pending == None
          && result == ResultAfter(Classify(server(fired.value)))
          && errorMsg == ErrorAfter(Classify(server(fired.value)))
        else
          fired == None && pending == p && result == old(result) && errorMsg == old(errorMsg)
      ensures filePath == old(filePath) && query == old(query) && useLLM == old(useLLM)
    {
      fired := None;
      if pending.Some? && pending.value.due <= now {
        var p := pending.value;
        pending := None;
        var req := Start(p.query, p.useLLM, p.filePath);
        Complete(server(req));
        fired := Some(req);
      }
    }
  }

  /** The scenario of an upload followed by the automatic re-run: the re-run
      is due 250 after the upload, fires once and sends `file=ds_1`. */
  method UploadThenRerunScenario()
  {
    var server := (ps: Params) => Threw(JsError("offline", "TypeError: offline"));
    var a := new Analyzer();
    a.SetQuery("price trend Akurdi");
    a.SetFilePath(Str("ds_1"), 1000);
    assert a.pending == Some(Pending(1250, "price trend Akurdi", false, Str("ds_1")));
    var early := a.Tick(1249, server);
    assert early == None;
    var fired := a.Tick(1250, server);
    assert fired == Some(RequestParams("price trend Akurdi", false, Str("ds_1")));
    assert fired.value[3] == ("file", "ds_1");
    var again := a.Tick(5000, server);
    assert again == None;
  }

  /** A query typed within the debounce window is not the one the re-run
      sends: the timer keeps the query of the render that scheduled it. */
  method StaleQueryScenario()
  {
    var server := (ps: Params) => Threw(JsError("Failed to fetch", "TypeError: Failed to fetch"));
    var a := new Analyzer();
    a.SetQuery("wakad");
    a.SetFilePath(Str("/tmp/a.csv"), 0);
    a.SetQuery("akurdi");
    var fired := a.Tick(250, server);
    assert fired.Some? && fired.value[0] == ("query", "wakad");
    assert a.errorMsg == Str("Failed to fetch") && a.result == Null;
  }
}
