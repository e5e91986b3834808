/**
 * The load-state machine of the schema loader component: which loads start on
 * mount and on update, what a load's completion commits to the state, and how
 * the state is rendered.
 *
 * Fetching and parsing are abstract: a completion event carries the fetch
 * outcome, and the JSON and YAML parsers are parameters. Asynchronous
 * completions are sequential events that may arrive in any order.
 */
module LoadSchema {
  import opened Wrappers
  import opened Schema

  /** The committed outcome of one load: the url it was started for and the parsed schema or error record. */
  datatype ResultState = ResultState(currentUrl: string, schema: JsonSchema)

  /** The component state. An absent `noSchema` is modelled as `false`, the only way it is read. */
  datatype LoadSchemaState = LoadSchemaState(result: Option<ResultState>, noSchema: bool)

  /** The record committed when a load fails: an object whose only member is `message`. */
  function LoadErrorRecord(message: string): (r: JsonSchema)
    ensures IsLoadSchemaError(r) && r.message == Some(message)
    ensures r.Obj? && r.title.None?
  {
    Obj(None, Some(message))
  }

  /** `isLoadSchemaError`: a non-boolean value with a `message` member; never a boolean schema. */
  predicate IsLoadSchemaError(e: JsonSchema)
    ensures IsLoadSchemaError(e) <==> e.Obj? && e.message.Some?
  {
    match e
    case Bool(_) => false
    case Obj(_, message) => message.Some?
  }

  /** What `fetch(url).then(resp => resp.text())` delivers: the body text or the rejection's message. */
  datatype FetchOutcome = Fetched(raw: string) | FetchFailed(message: string)

  /** A text parser: the parsed value, or the message of the error it throws. */
  type Parser = string -> Result<JsonSchema, string>

  /** JSON first, YAML only when JSON throws. */
  function ParseText(raw: string, jsonParse: Parser, yamlParse: Parser): (r: Result<JsonSchema, string>)
    ensures jsonParse(raw).Ok? ==> r == jsonParse(raw)
    ensures jsonParse(raw).Err? ==> r == yamlParse(raw)
    ensures r.Err? <==> jsonParse(raw).Err? && yamlParse(raw).Err?
  {
    match jsonParse(raw)
    case Ok(schema) => Ok(schema)
    case Err(_) => yamlParse(raw)
  }

  /** The result a completion of the load of `url` commits. */
  function Committed(url: string, fetched: FetchOutcome, jsonParse: Parser, yamlParse: Parser): (r: ResultState)
    ensures r.currentUrl == url
    ensures fetched.FetchFailed? ==> r.schema == LoadErrorRecord(fetched.message)
    ensures fetched.Fetched? ==> match ParseText(fetched.raw, jsonParse, yamlParse)
                                 case Ok(schema) => r.schema == schema
                                 case Err(message) => r.schema == LoadErrorRecord(message)
  {
    match fetched
    case FetchFailed(message) => ResultState(url, LoadErrorRecord(message))
    case Fetched(raw) =>
      match ParseText(raw, jsonParse, yamlParse)
      case Ok(schema) => ResultState(url, schema)
      case Err(message) => ResultState(url, LoadErrorRecord(message))
  }

  /** The entry `addRecentlyViewedLink` receives. */
  datatype RecentLink = RecentLink(title: string, url: string)

  /** `linkTitle`: an object schema's non-empty title, otherwise the url. */
  function LinkTitle(result: ResultState): (t: string)
    ensures result.schema.Bool? ==> t == result.currentUrl
    ensures result.schema.Obj? && result.schema.title.Some? && result.schema.title.value != "" ==>
      t == result.schema.title.value
    ensures result.schema.Obj? && (result.schema.title.None? || result.schema.title.value == "") ==>
      t == result.currentUrl
  {
    match result.schema
    case Bool(_) => result.currentUrl
    case Obj(title, _) => TitleOr(title, result.currentUrl)
  }

  /** The branches of `render`; only the content branch records a recently-viewed link. */
  datatype View =
    | NoSchemaPrompt
    | Loading
    | LoadFailed(message: string)
    | Content(schema: JsonSchema, recorded: RecentLink)

  /** `render`: `noSchema`, then loading, then load error, then content. */
  function Render(state: LoadSchemaState): (v: View)
    ensures v.NoSchemaPrompt? <==> state.noSchema
    ensures v.Loading? <==> !state.noSchema && state.result.None?
    ensures v.LoadFailed? <==> !state.noSchema && state.result.Some? && IsLoadSchemaError(state.result.value.schema)
    ensures v.LoadFailed? ==> Some(v.message) == state.result.value.schema.message
    ensures v.Content? ==> && state.result.Some?
                           && v.schema == state.result.value.schema
                           && v.recorded == RecentLink(LinkTitle(state.result.value), state.result.value.currentUrl)
  {
    if state.noSchema then NoSchemaPrompt
    else
      match state.result
      case None => Loading
      case Some(result) =>
        if IsLoadSchemaError(result.schema) then LoadFailed(result.schema.message.value)
        else Content(result.schema, RecentLink(LinkTitle(result), result.currentUrl))
  }

  /** The reload rule of `componentDidUpdate`. */
  predicate ShouldReload(prevState: LoadSchemaState, url: Option<string>): (r: bool)
    ensures prevState.result.None? ==> !r
    ensures url.None? ==> !r
    ensures prevState.result.Some? && url.Some? ==> (r <==> prevState.result.value.currentUrl != url.value)
  {
    prevState.result.Some? && url.Some? && prevState.result.value.currentUrl != url.value
  }

  /** A failed load, whether fetching or both parsers failed, renders its message. */
  lemma FailedLoadRendersMessage(url: string, fetched: FetchOutcome, jsonParse: Parser, yamlParse: Parser)
    requires fetched.FetchFailed? || ParseText(fetched.raw, jsonParse, yamlParse).Err?
    ensures var message := if fetched.FetchFailed? then fetched.message
                           else ParseText(fetched.raw, jsonParse, yamlParse).error;
            Render(LoadSchemaState(Some(Committed(url, fetched, jsonParse, yamlParse)), false)) == LoadFailed(message)
  {
  }

  /**
   * A successfully parsed object schema that itself has a top-level
   * `message` member is indistinguishable from a load error when rendered.
   */
  lemma LoadedMessageMemberRendersAsFailure(url: string, raw: string, jsonParse: Parser, yamlParse: Parser, title: Option<string>, message: string)
    requires ParseText(raw, jsonParse, yamlParse) == Ok(Obj(title, Some(message)))
    ensures Render(LoadSchemaState(Some(Committed(url, Fetched(raw), jsonParse, yamlParse)), false)) == LoadFailed(message)
  {
  }

  /** A successfully parsed schema without a `message` member is shown, and the url is recorded as viewed. */
  lemma LoadedSchemaRendersContent(url: string, raw: string, jsonParse: Parser, yamlParse: Parser, schema: JsonSchema)
    requires ParseText(raw, jsonParse, yamlParse) == Ok(schema)
    requires !(schema.Obj? && schema.message.Some?)
    ensures Render(LoadSchemaState(Some(Committed(url, Fetched(raw), jsonParse, yamlParse)), false))
            == Content(schema, RecentLink(LinkTitle(ResultState(url, schema)), url))
  {
  }

  /**
   * The loader component. `pending` lists, in start order, the urls of the
   * loads whose completion has not arrived yet; `history` is every state the
   * component has been in, which is where `componentDidUpdate`'s previous
   * state comes from.
   */
  class LoadSchemaComponent {
    var result: Option<ResultState>
    var noSchema: bool
    var pending: seq<string>
    ghost var history: seq<LoadSchemaState>

    function State(): (s: LoadSchemaState)
      reads this
    {
      LoadSchemaState(result, noSchema)
    }

    /** The history ends in the current state, and once `noSchema` is set no load ever ran or runs. */
    ghost predicate Valid()
      reads this
    {
      && |history| > 0
      && history[|history| - 1] == State()
      && (noSchema ==> pending == [] && forall k :: 0 <= k < |history| ==> history[k].result.None?)
    }

    /** The initial state `{}`. */
    constructor ()
      ensures Valid()
      ensures State() == LoadSchemaState(None, false) && pending == []
      ensures history == [State()]
    {
      result := None;
      noSchema := false;
      pending := [];
      history := [LoadSchemaState(None, false)];
    }

    /** `loadUrl`: starts a load; its completion is a later `Complete` event. */
    method LoadUrl(url: string)
      requires Valid() && !noSchema
      modifies this`pending
      ensures Valid()
      ensures pending == old(pending) + [url]
    {
      pending := pending + [url];
    }

    /** `componentDidMount`, given the `url` query parameter; it runs once, on the initial state. */
    method Mount(url: Option<string>)
      requires Valid()
      requires State() == LoadSchemaState(None, false) && pending == [] && history == [State()]
      modifies this
      ensures Valid()
      ensures url.Some? ==> pending == [url.value] && State() == old(State()) && history == old(history)
      ensures url.None? ==> pending == [] && State() == LoadSchemaState(None, true)
                            && history == old(history) + [State()]
    {
      if url.Some? {
        LoadUrl(url.value);
      } else {
        noSchema := true;
        history := history + [State()];
      }
    }

    /**
     * `componentDidUpdate`, given a previous state of this component and the
     * current `url` query parameter. A reload starts only when the previous
     * state already had a result, for a different url, and a url is present.
     */
    method Update(prevState: LoadSchemaState, url: Option<string>)
      requires Valid()
      requires prevState in history
      modifies this
      ensures Valid()
      ensures State() == old(State()) && history == old(history)
      ensures pending == if ShouldReload(prevState, url) then old(pending) + [url.value] else old(pending)
      ensures prevState.result.None? ==> pending == old(pending)
      ensures old(noSchema) ==> pending == []
    {
      if ShouldReload(prevState, url) {
        LoadUrl(url.value);
      }
    }

    /**
     * The completion of the `i`-th pending load. It commits unconditionally:
     * nothing compares its url with the url currently requested.
     */
    method Complete(i: nat, fetched: FetchOutcome, jsonParse: Parser, yamlParse: Parser)
      requires Valid()
      requires i < |pending|
      modifies this
      ensures Valid()
      ensures pending == old(pending[..i] + pending[i + 1..])
      ensures result == Some(Committed(old(pending[i]), fetched, jsonParse, yamlParse))
      ensures noSchema == old(noSchema)
      ensures history == old(history) + [State()]
    {
      var url := pending[i];
      pending := pending[..i] + pending[i + 1..];
      result := Some(Committed(url, fetched, jsonParse, yamlParse));
      history := history + [State()];
    }
  }

  /** The parser the runs below use: every text parses as the schema `true`. */
  const AnythingParser: Parser := raw => Ok(Bool(true))

  /**
   * The first part of a run: a first load of `x` completes, then the user
   * navigates to `a` and, before `a` arrives, to `b`. Each commit is
   * followed by the `componentDidUpdate` it causes. Both loads are in flight.
   */
  method LoadThenNavigateTwice(x: string, a: string, b: string) returns (c: LoadSchemaComponent)
    requires x != a && x != b && a != b
    ensures fresh(c) && c.Valid()
    ensures c.result == Some(ResultState(x, Bool(true))) && !c.noSchema
    ensures c.pending == [a, b]
  {
    c := new LoadSchemaComponent();
    c.Mount(Some(x));
    var before := c.State();
    c.Complete(0, Fetched(x), AnythingParser, AnythingParser);
    assert c.result == Some(ResultState(x, Bool(true))) && c.pending == [];
    assert before in c.history;
    c.Update(before, Some(x));

    before := c.State();
    c.Update(before, Some(a));
    assert c.pending == [a];
    before := c.State();
    c.Update(before, Some(b));
  }

  /**
   * The rest of the run: `b`'s load completes first. The update that commit
   * causes still sees `x` as the previous result and starts a second load of
   * `b`, which also completes. `a`'s load, superseded since the user moved on
   * to `b`, completes last: its result replaces `b`'s, and no load is left in
   * flight to correct it.
   */
  method StaleCompletionWins(x: string, a: string, b: string) returns (shown: string, inFlight: seq<string>)
    requires x != a && x != b && a != b
    ensures shown == a && inFlight == []
  {
    var c := LoadThenNavigateTwice(x, a, b);

    var before := c.State();
    c.Complete(1, Fetched(b), AnythingParser, AnythingParser);
    assert c.result == Some(ResultState(b, Bool(true))) && c.pending == [a];
    assert before in c.history;
    c.Update(before, Some(b));
    assert c.pending == [a, b];

    before := c.State();
    c.Complete(1, Fetched(b), AnythingParser, AnythingParser);
    assert c.result == Some(ResultState(b, Bool(true))) && c.pending == [a];
    assert before in c.history;
    c.Update(before, Some(b));
    assert c.pending == [a];

    before := c.State();
    c.Complete(0, Fetched(a), AnythingParser, AnythingParser);
    assert c.result == Some(ResultState(a, Bool(true))) && c.pending == [];
    assert before in c.history;
    c.Update(before, Some(b));

    shown := c.result.value.currentUrl;
    inFlight := c.pending;
  }
}
