/**
  Adding query parameters to an endpoint before a GET request.

  Parsing a URL, parsing and encoding its query, and printing a URL back out
  belong to the URL library; they reach this model as the functions of a
  `NetUrl` record, and an HTTP round trip reaches it as a function too.
 */
module Query {
  import opened Wrappers

  /** A parsed query: each key with its list of values. */
  type Values = map<string, seq<string>>

  /** A parsed URL; everything but `rawQuery` is carried through untouched. */
  datatype URL = URL(
    scheme: string,
    user: string,
    host: string,
    path: string,
    rawQuery: string,
    fragment: string)

  /** The URL library: the outcome of each call for each argument. */
  datatype NetUrl = NetUrl(
    parse: string -> Result<URL>,
    parseQuery: string -> Result<Values>,
    encode: Values -> string,
    render: URL -> string)

  /** What an HTTP request returns: a status code, a body and an error, if any. */
  datatype HttpOutcome = HttpOutcome(status: int, body: string, err: Option<Error>)

  /** Replaces every value of `key` with the single value `value`. */
  function Set(v: Values, key: string, value: string): (r: Values)
    ensures key in r && r[key] == [value]
    ensures forall k :: k in v && k != key ==> k in r && r[k] == v[k]
    ensures r.Keys == v.Keys + {key}
  {
    v[key := [value]]
  }

  /**
    `m` is `existing` after each key of `params` has been set: such a key has
    exactly its one new value, every other key keeps its old values.
   */
  ghost predicate IsMerge(m: Values, existing: Values, params: map<string, string>)
  {
    && m.Keys == existing.Keys + params.Keys
    && (forall k :: k in params ==> m[k] == [params[k]])
    && (forall k :: k in existing && k !in params ==> m[k] == existing[k])
  }

  /** The merge, as one map. */
  ghost function Merge(existing: Values, params: map<string, string>): Values
  {
    map k | k in existing.Keys + params.Keys :: if k in params then [params[k]] else existing[k]
  }

  /** The merge of the whole map of parameters is `Merge`, and nothing else is. */
  lemma MergeIsTheOnlyMerge(m: Values, existing: Values, params: map<string, string>)
    ensures IsMerge(m, existing, params) <==> m == Merge(existing, params)
  {
    var r := Merge(existing, params);
    assert IsMerge(r, existing, params);
    if IsMerge(m, existing, params) {
      assert m.Keys == r.Keys;
      forall k | k in m ensures m[k] == r[k] {
        if k !in params {
          assert k in existing;
        }
      }
    }
  }

  /** The keys of `params` set in the order `order`. */
  function SetEach(v: Values, params: map<string, string>, order: seq<string>): Values
    requires forall i :: 0 <= i < |order| ==> order[i] in params
    decreases |order|
  {
    if order == [] then v else SetEach(Set(v, order[0], params[order[0]]), params, order[1..])
  }

  /** Setting keys one by one replaces exactly the keys set, whatever their order. */
  lemma {:induction false} SetEachReplacesKeysSet(v: Values, params: map<string, string>, order: seq<string>)
    requires forall i :: 0 <= i < |order| ==> order[i] in params
    ensures SetEach(v, params, order).Keys == v.Keys + set k | k in order
    ensures forall k :: k in order ==> SetEach(v, params, order)[k] == [params[k]]
    ensures forall k :: k in v && k !in order ==> SetEach(v, params, order)[k] == v[k]
    decreases |order|
  {
    if order != [] {
      var v' := Set(v, order[0], params[order[0]]);
      SetEachReplacesKeysSet(v', params, order[1..]);
      assert (set k | k in order) == {order[0]} + set k | k in order[1..];
      forall k | k in order ensures SetEach(v, params, order)[k] == [params[k]] {
        if k !in order[1..] {
          assert k == order[0];
        }
      }
    }
  }

  /** The map iteration order does not matter: every order of the keys gives `Merge`. */
  lemma IterationOrderIrrelevant(v: Values, params: map<string, string>, order: seq<string>)
    requires forall i :: 0 <= i < |order| ==> order[i] in params
    requires forall k :: k in params ==> k in order
    ensures SetEach(v, params, order) == Merge(v, params)
  {
    SetEachReplacesKeysSet(v, params, order);
    assert (set k | k in order) == params.Keys;
    MergeIsTheOnlyMerge(SetEach(v, params, order), v, params);
  }

  /** Sets every key of `params` in `existing`, visiting the keys in an arbitrary order. */
  method SetAll(existing: Values, params: map<string, string>) returns (merged: Values)
    ensures IsMerge(merged, existing, params)
    ensures merged == Merge(existing, params)
  {
    merged := existing;
    var remaining := params.Keys;
    while remaining != {}
      invariant remaining <= params.Keys
      invariant merged.Keys == existing.Keys + (params.Keys - remaining)
      invariant forall k :: k in params && k !in remaining ==> merged[k] == [params[k]]
      invariant forall k :: k in existing && (k !in params || k in remaining) ==> merged[k] == existing[k]
      decreases remaining
    {
      var key :| key in remaining;
      merged := Set(merged, key, params[key]);
      remaining := remaining - {key};
    }
    MergeIsTheOnlyMerge(merged, existing, params);
  }

  /** What adding `queryParams` to `endpoint` yields. */
  ghost function AddedQueryParams(endpoint: string, queryParams: map<string, string>, net: NetUrl): Result<string>
  {
    match net.parse(endpoint)
    case Failure(e) => Failure(e)
    case Success(u) =>
      match net.parseQuery(u.rawQuery)
      case Failure(e) => Failure(e)
      case Success(existing) => Success(net.render(u.(rawQuery := net.encode(Merge(existing, queryParams)))))
  }

  /**
    On success the URL is the parsed endpoint with only its query replaced,
    and the new query is a merge of the old one with the parameters.
   */
  lemma AddedQueryParamsChangesOnlyQuery(endpoint: string, queryParams: map<string, string>, net: NetUrl)
    requires AddedQueryParams(endpoint, queryParams, net).Success?
    ensures net.parse(endpoint).Success?
    ensures net.parseQuery(net.parse(endpoint).value.rawQuery).Success?
    ensures
      var u := net.parse(endpoint).value;
      var existing := net.parseQuery(u.rawQuery).value;
      exists m: Values, u': URL ::
        && IsMerge(m, existing, queryParams)
        && u'.rawQuery == net.encode(m)
        && u'.(rawQuery := u.rawQuery) == u
        && AddedQueryParams(endpoint, queryParams, net).value == net.render(u')
  {
    var u := net.parse(endpoint).value;
    var existing := net.parseQuery(u.rawQuery).value;
    var m := Merge(existing, queryParams);
    MergeIsTheOnlyMerge(m, existing, queryParams);
    var u' := u.(rawQuery := net.encode(m));
    assert u'.(rawQuery := u.rawQuery) == u;
  }

  /** An empty (not absent) map of parameters still sends the query through a parse and re-encode. */
  lemma NoParamsReencodesQuery(endpoint: string, net: NetUrl)
    requires net.parse(endpoint).Success?
    requires net.parseQuery(net.parse(endpoint).value.rawQuery).Success?
    ensures
      var u := net.parse(endpoint).value;
      AddedQueryParams(endpoint, map[], net)
        == Success(net.render(u.(rawQuery := net.encode(net.parseQuery(u.rawQuery).value))))
  {
    var u := net.parse(endpoint).value;
    var existing := net.parseQuery(u.rawQuery).value;
    MergeIsTheOnlyMerge(existing, existing, map[]);
  }

  /** Parses `endpoint`, sets each query parameter in its query, and prints the URL back out. */
  method AddQueryParamsToURL(endpoint: string, queryParams: map<string, string>, net: NetUrl)
    returns (r: Result<string>)
    ensures r == AddedQueryParams(endpoint, queryParams, net)
    ensures net.parse(endpoint).Failure? ==> r == Failure(net.parse(endpoint).error)
  {
    var parsed := net.parse(endpoint);
    if parsed.Failure? {
      return Failure(parsed.error);
    }
    var parsedURL := parsed.value;

    var query := net.parseQuery(parsedURL.rawQuery);
    if query.Failure? {
      return Failure(query.error);
    }

    var existingQueryParams := SetAll(query.value, queryParams);

    parsedURL := parsedURL.(rawQuery := net.encode(existingQueryParams));
    r := Success(net.render(parsedURL));
  }

  /**
    The query step of a GET: with no map (`None`, Go's nil) the endpoint is
    sent as it is; otherwise the parameters are added first, and if that
    fails the request is not sent. `send` is the HTTP round trip for a
    given endpoint.
   */
  method SendHttpGet(endpoint: string, queryParams: Option<map<string, string>>, net: NetUrl, send: string -> HttpOutcome)
    returns (out: HttpOutcome)
    ensures queryParams.None? ==> out == send(endpoint)
    ensures queryParams.Some? ==>
      match AddedQueryParams(endpoint, queryParams.value, net)
      case Failure(e) => out == HttpOutcome(-1, "", Some(e))
      case Success(withQuery) => out == send(withQuery)
  {
    var target := endpoint;
    if queryParams.Some? {
      var added := AddQueryParamsToURL(endpoint, queryParams.value, net);
      if added.Failure? {
        return HttpOutcome(-1, "", Some(added.error));
      }
      target := added.value;
    }
    out := send(target);
  }
}
