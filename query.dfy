/** The query router's request handling: normalising the filters in a request's
    parameters before they reach the pipeline, and making sure the result holds
    the keys the response schema expects. */
module Query {
  import opened Wrappers
  import opened PyValue
  import opened RoutersUtils

  /** `.items()` on a filter value that is not a mapping raises AttributeError. */
  datatype FilterError = NotAMapping

  // ---------------------------------------------------------------------------
  // `_format_filters`

  /** The value one filter entry becomes: a list is kept, anything else is wrapped
      in a one-element list. */
  function AsList(values: Value): (r: Value)
    ensures r.List?
    ensures values.List? ==> r == values
    ensures !values.List? ==> r.items == [values]
  {
    if values.List? then values else List([values])
  }

  /** The filter entries, formatted: null values dropped, the rest as lists. */
  function FormattedEntries(entries: seq<Entry>): seq<Entry>
  {
    if entries == [] then []
    else
      var last := entries[|entries| - 1];
      var done := FormattedEntries(entries[..|entries| - 1]);
      if last.value.Null? then done else Set(done, last.key, AsList(last.value))
  }

  /** `_format_filters(filters)`: `None` gives an empty dict, a dict is formatted,
      and anything else has no `.items()`. */
  function FormattedFilters(filters: Value): Result<seq<Entry>, FilterError>
  {
    match filters
    case Null => Ok([])
    case Dict(entries) => Ok(FormattedEntries(entries))
    case _ => Err(NotAMapping)
  }

  /** `_format_filters(filters)`, entry by entry. */
  method FormatFilters(filters: Value) returns (r: Result<seq<Entry>, FilterError>)
    ensures r == FormattedFilters(filters)
    ensures filters.Null? ==> r == Ok([])
    ensures r.Err? <==> !filters.Null? && !filters.Dict?
  {
    var newFilters: seq<Entry> := [];
    if filters.Null? {
      return Ok(newFilters);
    }
    if !filters.Dict? {
      return Err(NotAMapping);
    }
    var entries := filters.entries;
    var i := 0;
    while i < |entries|
      invariant 0 <= i <= |entries|
      invariant newFilters == FormattedEntries(entries[..i])
    {
      var key, values := entries[i].key, entries[i].value;
      assert entries[..i + 1][..i] == entries[..i];
      i := i + 1;
      if values.Null? {
        continue;
      }
      if !values.List? {
        values := List([values]);
      }
      newFilters := Set(newFilters, key, values);
    }
    assert entries[..i] == entries;
    r := Ok(newFilters);
  }

  /** What one filter entry looks like after formatting, if it is kept. */
  function FormattedValue(v: Option<Value>): Option<Value>
  {
    match v
    case None => None
    case Some(Null) => None
    case Some(x) => Some(AsList(x))
  }

  /** The formatted filters map every key to its formatted value: null entries
      are gone, lists are kept, anything else is wrapped. */
  lemma {:induction false} FormattedEntriesGet(entries: seq<Entry>, key: string)
    requires UniqueKeys(entries)
    ensures Get(FormattedEntries(entries), key) == FormattedValue(Get(entries, key))
  {
    if entries != [] {
      var prefix, last := entries[..|entries| - 1], entries[|entries| - 1];
      assert entries == prefix + [last];
      assert UniqueKeys(prefix);
      FormattedEntriesGet(prefix, key);
      GetAppendOne(prefix, last, key);
      if last.key == key {
        assert key !in Keys(prefix);
      }
      if !last.value.Null? {
        if last.key == key {
          SetThenGet(FormattedEntries(prefix), key, AsList(last.value));
        } else {
          SetKeepsOthers(FormattedEntries(prefix), last.key, AsList(last.value), key);
        }
      }
    }
  }

  /** The keys whose value is not null, in order. */
  function NonNullKeys(entries: seq<Entry>): seq<string>
  {
    if entries == [] then []
    else
      var last := entries[|entries| - 1];
      NonNullKeys(entries[..|entries| - 1]) + if last.value.Null? then [] else [last.key]
  }

  /** The formatted filters keep exactly the non-null keys, in their order. */
  lemma {:induction false} FormattedEntriesKeys(entries: seq<Entry>)
    requires UniqueKeys(entries)
    ensures Keys(FormattedEntries(entries)) == NonNullKeys(entries)
  {
    if entries != [] {
      var prefix, last := entries[..|entries| - 1], entries[|entries| - 1];
      assert entries == prefix + [last];
      assert UniqueKeys(prefix);
      FormattedEntriesKeys(prefix);
      if !last.value.Null? {
        assert last.key !in Keys(prefix);
        FormattedEntriesGet(prefix, last.key);
        SetKeys(FormattedEntries(prefix), last.key, AsList(last.value));
      }
    }
  }

  /** Every value in the dict is a list. */
  predicate AllLists(d: seq<Entry>)
  {
    forall i :: 0 <= i < |d| ==> d[i].value.List?
  }

  lemma {:induction false} SetKeepsLists(d: seq<Entry>, key: string, value: Value)
    requires AllLists(d) && value.List?
    ensures AllLists(Set(d, key, value))
  {
    if d != [] && d[0].key != key {
      assert AllLists(d[1..]);
      SetKeepsLists(d[1..], key, value);
    }
  }

  /** Every formatted filter value is a list. */
  lemma {:induction false} FormattedEntriesAreLists(entries: seq<Entry>)
    ensures AllLists(FormattedEntries(entries))
  {
    if entries != [] {
      var prefix, last := entries[..|entries| - 1], entries[|entries| - 1];
      FormattedEntriesAreLists(prefix);
      if !last.value.Null? {
        SetKeepsLists(FormattedEntries(prefix), last.key, AsList(last.value));
      }
    }
  }

  // ---------------------------------------------------------------------------
  // `_process_request`

  /** The value under `key` is a mapping holding a "filters" entry. */
  predicate HoldsFilters(v: Value)
  {
    v.Dict? && "filters" in Keys(v.entries)
  }

  /** The node-filter step for one parameter: a mapping holding "filters" gets that
      entry formatted; anything else is left as it is. The global "filters" entry
      is visited too when `revisitGlobal` holds, as the source's loop does. */
  function FormatNodeEntry(e: Entry, revisitGlobal: bool): (r: Result<Entry, FilterError>)
    ensures r.Ok? ==> r.value.key == e.key
  {
    if !revisitGlobal && e.key == "filters" then Ok(e)
    else if HoldsFilters(e.value) then
      match FormattedFilters(Get(e.value.entries, "filters").value)
      case Err(err) => Err(err)
      case Ok(f) => Ok(Entry(e.key, Dict(Set(e.value.entries, "filters", Dict(f)))))
    else Ok(e)
  }

  /** The node-filter step over all parameters, in order; the first failure wins. */
  function FormatNodeEntries(params: seq<Entry>, revisitGlobal: bool): Result<seq<Entry>, FilterError>
  {
    if params == [] then Ok([])
    else
      match FormatNodeEntries(params[..|params| - 1], revisitGlobal)
      case Err(err) => Err(err)
      case Ok(done) =>
        match FormatNodeEntry(params[|params| - 1], revisitGlobal)
        case Err(err) => Err(err)
        case Ok(e) => Ok(done + [e])
  }

  /** The global step: a top-level "filters" entry is replaced by its formatted form. */
  function FormatGlobal(params: seq<Entry>): Result<seq<Entry>, FilterError>
  {
    if "filters" in Keys(params) then
      match FormattedFilters(Get(params, "filters").value)
      case Err(err) => Err(err)
      case Ok(f) => Ok(Set(params, "filters", Dict(f)))
    else Ok(params)
  }

  /** The parameters as `_process_request` is written: `None` is `{}`, the global
      filters are formatted, and then every parameter is visited, the global
      "filters" entry included. */
  function ProcessedAsWritten(params: Option<seq<Entry>>): Result<seq<Entry>, FilterError>
  {
    var p := if params.Some? then params.value else [];
    match FormatGlobal(p)
    case Err(err) => Err(err)
    case Ok(q) => FormatNodeEntries(q, true)
  }

  /** The parameters the pipeline receives: as above, except that the node step
      leaves the already formatted global "filters" entry alone. */
  function Processed(params: Option<seq<Entry>>): Result<seq<Entry>, FilterError>
  {
    var p := if params.Some? then params.value else [];
    match FormatGlobal(p)
    case Err(err) => Err(err)
    case Ok(q) => FormatNodeEntries(q, false)
  }

  /** Global filters on a metadata field that is itself called "filters": the
      first step turns its value into a list, and the second step, meeting the
      global entry again, asks that list for `.items()`. */
  const FieldNamedFilters: seq<Entry> := [Entry("filters", Dict([Entry("filters", Str("x"))]))]

  /** The filters a request carries are all mappings (or null): the global ones,
      and those of every node other than the global entry. */
  predicate FiltersAreMappings(params: seq<Entry>)
  {
    && (Get(params, "filters").Some? ==> Get(params, "filters").value.Null? || Get(params, "filters").value.Dict?)
    && (forall i :: 0 <= i < |params| && params[i].key != "filters" && HoldsFilters(params[i].value) ==>
          var f := Get(params[i].value.entries, "filters").value; f.Null? || f.Dict?)
  }

  /** As written, a request whose filters are all mappings still fails. */
  lemma GlobalFiltersFormattedTwice()
    ensures FiltersAreMappings(FieldNamedFilters)
    ensures ProcessedAsWritten(Some(FieldNamedFilters)) == Err(NotAMapping)
    ensures Processed(Some(FieldNamedFilters)).Ok?
  {
    var inner := [Entry("filters", Str("x"))];
    assert Keys(FieldNamedFilters) == ["filters"];
    assert Get(FieldNamedFilters, "filters") == Some(Dict(inner));
    assert inner[..0] == [];
    var formatted := [Entry("filters", List([Str("x")]))];
    assert FormattedEntries(inner) == formatted;
    var q := [Entry("filters", Dict(formatted))];
    assert FieldNamedFilters[1..] == [];
    assert FormattedFilters(Get(FieldNamedFilters, "filters").value) == Ok(formatted);
    assert Set(FieldNamedFilters, "filters", Dict(formatted)) == q;
    assert FormatGlobal(FieldNamedFilters) == Ok(q);
    assert FormatNodeEntries(q, true) == Err(NotAMapping) by {
      assert q[..0] == [];
      assert Keys(formatted) == ["filters"];
      assert HoldsFilters(q[0].value);
    }
  }

  lemma {:induction false} FormatNodeEntriesPointwise(params: seq<Entry>)
    requires forall i :: 0 <= i < |params| ==> FormatNodeEntry(params[i], false).Ok?
    ensures var r := FormatNodeEntries(params, false);
      && r.Ok? && |r.value| == |params|
      && forall i :: 0 <= i < |params| ==> r.value[i] == FormatNodeEntry(params[i], false).value
  {
    if params != [] {
      FormatNodeEntriesPointwise(params[..|params| - 1]);
    }
  }

  /** The global step keeps the filters of every other parameter where they were. */
  lemma {:induction false} SetKeepsOtherEntries(d: seq<Entry>, key: string, value: Value, i: nat)
    requires i < |d| && d[i].key != key
    ensures i < |Set(d, key, value)| && Set(d, key, value)[i] == d[i]
  {
    if d[0].key != key && i > 0 {
      SetKeepsOtherEntries(d[1..], key, value, i - 1);
    }
  }

  /** After the global step, every node other than the global entry holds the
      filters it held before. */
  lemma {:induction false} FormatGlobalKeepsNodes(params: seq<Entry>, i: nat)
    requires FormatGlobal(params).Ok?
    requires i < |params| && params[i].key != "filters"
    ensures var q := FormatGlobal(params).value; i < |q| && q[i] == params[i]
  {
    if "filters" in Keys(params) {
      var f := FormattedFilters(Get(params, "filters").value).value;
      SetKeepsOtherEntries(params, "filters", Dict(f), i);
    }
  }

  /** The global step keeps the parameter names and their order. */
  lemma FormatGlobalKeys(params: seq<Entry>)
    requires FormatGlobal(params).Ok?
    ensures Keys(FormatGlobal(params).value) == Keys(params)
  {
    if "filters" in Keys(params) {
      var f := FormattedFilters(Get(params, "filters").value).value;
      SetKeys(params, "filters", Dict(f));
    }
  }

  /** With the correction, a request whose filters are all mappings is processed
      without error; the parameters keep their names and order, and each holds
      its node-formatted form after the global step: the global entry formatted
      once, each node's mapping once, everything else unchanged. */
  lemma ProcessedSucceeds(params: seq<Entry>)
    requires FiltersAreMappings(params)
    ensures var r := Processed(Some(params));
      && r.Ok?
      && Keys(r.value) == Keys(params)
      && |FormatGlobal(params).value| == |r.value|
      && forall i :: 0 <= i < |r.value| ==> FormatNodeEntry(FormatGlobal(params).value[i], false) == Ok(r.value[i])
  {
    assert FormatGlobal(params).Ok?;
    var qs := FormatGlobal(params).value;
    FormatGlobalKeys(params);
    forall i | 0 <= i < |qs|
      ensures FormatNodeEntry(qs[i], false).Ok?
    {
      assert Keys(qs)[i] == qs[i].key && Keys(params)[i] == params[i].key;
      if qs[i].key != "filters" {
        FormatGlobalKeepsNodes(params, i);
      }
    }
    FormatNodeEntriesPointwise(qs);
    var r := FormatNodeEntries(qs, false).value;
    assert Keys(r) == Keys(qs) by {
      forall k | 0 <= k < |r|
        ensures Keys(r)[k] == Keys(qs)[k]
      {
        assert r[k] == FormatNodeEntry(qs[k], false).value;
      }
    }
  }

  /** With unique keys, `d[key] = value` puts `value` where `key` already stood. */
  lemma {:induction false} SetAtKey(d: seq<Entry>, key: string, value: Value, i: nat)
    requires UniqueKeys(d) && i < |d| && d[i].key == key
    ensures |Set(d, key, value)| == |d| && Set(d, key, value)[i] == Entry(key, value)
  {
    if d[0].key == key {
      assert Set(d, key, value) == [Entry(key, value)] + d[1..];
    } else {
      assert Set(d, key, value) == [d[0]] + Set(d[1..], key, value);
      assert UniqueKeys(d[1..]);
      SetAtKey(d[1..], key, value, i - 1);
    }
  }

  /** Meeting the formatted global "filters" entry again, the node step of the
      source either leaves it alone, as the corrected step does, or raises: a
      formatted filter value is a list, which has no `.items()`. */
  lemma RevisitAgreesOrRaises(params: seq<Entry>, i: nat)
    requires UniqueKeys(params) && FormatGlobal(params).Ok?
    requires i < |FormatGlobal(params).value|
    ensures var e := FormatGlobal(params).value[i];
      FormatNodeEntry(e, true) == FormatNodeEntry(e, false) || FormatNodeEntry(e, true).Err?
  {
    var q := FormatGlobal(params).value;
    var e := q[i];
    if e.key == "filters" {
      if "filters" in Keys(params) {
        var v := Get(params, "filters").value;
        var f := FormattedFilters(v).value;
        SetKeys(params, "filters", Dict(f));
        assert Keys(q)[i] == Keys(params)[i];
        SetAtKey(params, "filters", Dict(f), i);
        if HoldsFilters(e.value) {
          if v.Dict? {
            FormattedEntriesAreLists(v.entries);
          }
          assert AllLists(f);
          var inner := Get(f, "filters").value;
          assert inner.List?;
        }
      }
    }
  }

  /** Two node steps that agree on every entry except where the first raises
      agree on the whole list except where the first raises. */
  lemma {:induction false} NodeEntriesAgreeOrRaise(q: seq<Entry>)
    requires forall i :: 0 <= i < |q| ==>
      FormatNodeEntry(q[i], true) == FormatNodeEntry(q[i], false) || FormatNodeEntry(q[i], true).Err?
    ensures FormatNodeEntries(q, true).Ok? ==> FormatNodeEntries(q, true) == FormatNodeEntries(q, false)
    ensures FormatNodeEntries(q, false).Err? ==> FormatNodeEntries(q, true).Err?
  {
    if q != [] {
      NodeEntriesAgreeOrRaise(q[..|q| - 1]);
    }
  }

  /** The correction changes only requests the source rejects: whenever the
      processing as written succeeds, the corrected processing hands the
      pipeline the same parameters, and whenever the corrected one raises, so
      does the original. */
  lemma CorrectionOnlyRescuesFailures(params: Option<seq<Entry>>)
    requires params.Some? ==> UniqueKeys(params.value)
    ensures ProcessedAsWritten(params).Ok? ==> ProcessedAsWritten(params) == Processed(params)
    ensures Processed(params).Err? ==> ProcessedAsWritten(params).Err?
  {
    var p := if params.Some? then params.value else [];
    if FormatGlobal(p).Ok? {
      var q := FormatGlobal(p).value;
      forall i | 0 <= i < |q|
        ensures FormatNodeEntry(q[i], true) == FormatNodeEntry(q[i], false) || FormatNodeEntry(q[i], true).Err?
      {
        RevisitAgreesOrRaises(p, i);
      }
      NodeEntriesAgreeOrRaise(q);
    }
  }

  /** Once a prefix of the parameters fails the node step, the whole does, with
      the same error. */
  lemma {:induction false} NodeErrorPersists(params: seq<Entry>, n: nat)
    requires n <= |params| && FormatNodeEntries(params[..n], false).Err?
    ensures FormatNodeEntries(params, false) == FormatNodeEntries(params[..n], false)
  {
    if n < |params| {
      var init := params[..|params| - 1];
      assert init[..n] == params[..n];
      NodeErrorPersists(init, n);
    } else {
      assert params[..n] == params;
    }
  }

  lemma NodeStep(params: seq<Entry>, i: nat, done: seq<Entry>, e: Entry)
    requires i < |params|
    requires FormatNodeEntries(params[..i], false) == Ok(done)
    ensures FormatNodeEntries(params[..i + 1], false) ==
      match FormatNodeEntry(params[i], false) case Err(err) => Err(err) case Ok(e) => Ok(done + [e])
  {
    assert params[..i + 1][..i] == params[..i];
  }

  /** `_process_request`'s handling of `params` (corrected as above): the global
      filters first, then the node loop. */
  method ProcessParams(params: Option<seq<Entry>>) returns (r: Result<seq<Entry>, FilterError>)
    ensures r == Processed(params)
  {
    var p := if params.Some? then params.value else [];
    if "filters" in Keys(p) {
      var f := FormatFilters(Get(p, "filters").value);
      if f.Err? {
        return Err(f.error);
      }
      p := Set(p, "filters", Dict(f.value));
    }
    r := FormatNodeFilters(p);
  }

  /** The node loop of `_process_request`: each parameter that is a mapping holding
      "filters" gets that entry formatted in place. */
  method FormatNodeFilters(params: seq<Entry>) returns (r: Result<seq<Entry>, FilterError>)
    ensures r == FormatNodeEntries(params, false)
  {
    var p := params;
    var i := 0;
    while i < |p|
      invariant 0 <= i <= |p| && |p| == |params|
      invariant FormatNodeEntries(params[..i], false) == Ok(p[..i])
      invariant forall k :: i <= k < |p| ==> p[k] == params[k]
    {
      ghost var done := p[..i];
      NodeStep(params, i, done, params[i]);
      var key, value := p[i].key, p[i].value;
      if key != "filters" && value.Dict? && "filters" in Keys(value.entries) {
        var f := FormatFilters(Get(value.entries, "filters").value);
        if f.Err? {
          NodeErrorPersists(params, i + 1);
          return Err(f.error);
        }
        p := p[i := Entry(key, Dict(Set(value.entries, "filters", Dict(f.value))))];
      }
      assert FormatNodeEntry(params[i], false) == Ok(p[i]);
      assert p[..i + 1] == done + [p[i]];
      i := i + 1;
    }
    assert params[..i] == params && p[..i] == p;
    r := Ok(p);
  }

  // ---------------------------------------------------------------------------
  // The endpoints

  /** `result[key] = []` unless the result already has `key`. */
  function WithDefaultList(result: seq<Entry>, key: string): (r: seq<Entry>)
  {
    if key in Keys(result) then result else Set(result, key, List([]))
  }

  /** The default fills a missing key with an empty list and changes nothing else;
      an existing value is never overwritten. */
  lemma WithDefaultListGet(result: seq<Entry>, key: string, other: string)
    ensures Get(WithDefaultList(result, key), key) ==
      if key in Keys(result) then Get(result, key) else Some(List([]))
    ensures other != key ==> Get(WithDefaultList(result, key), other) == Get(result, other)
  {
    if key !in Keys(result) {
      SetThenGet(result, key, List([]));
      if other != key {
        SetKeepsOthers(result, key, List([]), other);
      }
    }
  }

  /** What a request carries besides its parameters. */
  datatype Request = Request(query: string, params: Option<seq<Entry>>, debug: bool)

  /** The pipeline run: opaque, from the query, the processed parameters and the
      debug flag to the result dict. */
  type Pipeline = (string, seq<Entry>, bool) -> seq<Entry>

  /** `query` (the `/qa` endpoint) inside the limiter: the result always holds
      "documents" and "answers". */
  method QueryEndpoint(limiter: RequestLimiter, pipeline: Pipeline, request: Request)
    returns (r: RunResult<seq<Entry>>)
    requires limiter.Valid()
    modifies limiter
    ensures limiter.Valid() && limiter.permits == old(limiter.permits) && limiter.admitted == old(limiter.admitted)
    ensures r.Rejected? <==> old(limiter.permits) == 0
    ensures r.Rejected? ==> r.error == ServerBusy
    ensures r.Ran? ==> match Processed(request.params)
      case Err(_) => r.outcome.Raised?
      case Ok(p) => r.outcome == Returned(
        WithDefaultList(WithDefaultList(pipeline(request.query, p, request.debug), "documents"), "answers"))
  {
    var entered := limiter.Enter();
    if entered.Err? {
      return Rejected(entered.error);
    }
    var params := ProcessParams(request.params);
    if params.Err? {
      r := Ran(Raised("AttributeError"));
    } else {
      var result := pipeline(request.query, params.value, request.debug);
      if "documents" !in Keys(result) {
        result := Set(result, "documents", List([]));
      }
      if "answers" !in Keys(result) {
        result := Set(result, "answers", List([]));
      }
      r := Ran(Returned(result));
    }
    limiter.Exit();
  }

  /** `search` inside the limiter: the result always holds "documents". */
  method SearchEndpoint(limiter: RequestLimiter, pipeline: Pipeline, request: Request)
    returns (r: RunResult<seq<Entry>>)
    requires limiter.Valid()
    modifies limiter
    ensures limiter.Valid() && limiter.permits == old(limiter.permits) && limiter.admitted == old(limiter.admitted)
    ensures r.Rejected? <==> old(limiter.permits) == 0
    ensures r.Rejected? ==> r.error == ServerBusy
    ensures r.Ran? ==> match Processed(request.params)
      case Err(_) => r.outcome.Raised?
      case Ok(p) => r.outcome == Returned(WithDefaultList(pipeline(request.query, p, request.debug), "documents"))
  {
    var entered := limiter.Enter();
    if entered.Err? {
      return Rejected(entered.error);
    }
    var params := ProcessParams(request.params);
    if params.Err? {
      r := Ran(Raised("AttributeError"));
    } else {
      var result := pipeline(request.query, params.value, request.debug);
      if "documents" !in Keys(result) {
        result := Set(result, "documents", List([]));
      }
      r := Ran(Returned(result));
    }
    limiter.Exit();
  }

  /** Both endpoints answer with the keys the response schema needs. */
  lemma EndpointKeys(result: seq<Entry>)
    ensures "documents" in Keys(WithDefaultList(result, "documents"))
    ensures var qa := WithDefaultList(WithDefaultList(result, "documents"), "answers");
      "documents" in Keys(qa) && "answers" in Keys(qa)
  {
    var d := WithDefaultList(result, "documents");
    WithDefaultListGet(result, "documents", "answers");
    WithDefaultListGet(d, "answers", "documents");
  }
}
