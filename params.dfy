/**
 * The five API resources and the per-resource allow-list of query
 * parameter names, with the validation the client performs before it
 * builds any request.
 */
module Params {
  import opened Wrappers

  /** The endpoints of the remote service. */
  datatype Resource = Meta | Data | Stats | Export | Limits

  /** A query: parameter name and value pairs, in the caller's order. */
  type Query = seq<(string, string)>

  /** The error raised for unrecognised parameters: the resource and the offending names. */
  datatype ParamError = InvalidParameters(resource: Resource, invalid: set<string>)

  /** The path segment naming a resource. */
  function Name(r: Resource): string
  {
    match r
    case Meta => "meta"
    case Data => "data"
    case Stats => "stats"
    case Export => "export"
    case Limits => "limits"
  }

  /** The class-level table of recognised parameter names, per resource. */
  const ParamMapping: map<Resource, seq<string>> := map[
    Meta := ["page"],
    Data := ["limit", "select", "search", "where", "conjunction", "sort", "page"],
    Stats := ["select", "operation", "by", "of", "limit", "search", "where", "conjunction", "sort", "page"],
    Export := ["select", "search", "where", "conjunction", "sort"],
    Limits := []
  ]

  /** The allow-list of one resource; every resource has one. */
  function AllowList(r: Resource): (names: seq<string>)
    ensures |names| == 0 <==> r == Limits
    ensures forall i :: 0 <= i < |names| ==> '&' !in names[i] && '=' !in names[i]
  {
    assert r == Meta || r == Data || r == Stats || r == Export || r == Limits;
    ParamMapping[r]
  }

  /** The set of parameter names a query supplies. */
  function Keys(q: Query): set<string>
  {
    set i | 0 <= i < |q| :: q[i].0
  }

  /** Every supplied name is on the resource's allow-list. */
  predicate AllAllowed(r: Resource, q: Query)
  {
    forall i :: 0 <= i < |q| ==> q[i].0 in AllowList(r)
  }

  /**
   * Validation: succeeds with `true` exactly when every supplied name is
   * allowed; otherwise fails naming the supplied names that are not.
   */
  function CheckQueryParams(r: Resource, q: Query): (res: Result<bool, ParamError>)
    ensures res.Success? <==> AllAllowed(r, q)
    ensures res.Success? ==> res.value
    ensures res.Failure? ==> res.error.resource == r && res.error.invalid != {}
    ensures res.Failure? ==> forall k :: k in res.error.invalid <==> (k in Keys(q) && k !in AllowList(r))
  {
    var invalid := Keys(q) - set k | k in AllowList(r);
    if invalid != {} then Failure(InvalidParameters(r, invalid))
    else
      assert forall i :: 0 <= i < |q| ==> q[i].0 in Keys(q) && q[i].0 !in invalid;
      Success(true)
  }

  /** The empty query passes validation for every resource. */
  lemma EmptyQueryValid(r: Resource)
    ensures CheckQueryParams(r, []) == Success(true)
  {
  }

  /** The limits resource accepts no parameter at all. */
  lemma LimitsRejectsEveryParameter(q: Query)
    requires |q| > 0
    ensures CheckQueryParams(Limits, q).Failure?
    ensures CheckQueryParams(Limits, q).error.invalid == Keys(q)
  {
    assert q[0].0 !in AllowList(Limits);
  }

  /** The meta resource accepts a query exactly when it only names `page`. */
  lemma MetaAcceptsOnlyPage(q: Query)
    ensures CheckQueryParams(Meta, q).Success? <==> forall i :: 0 <= i < |q| ==> q[i].0 == "page"
  {
  }

  /** Subsets of an accepted query are accepted too. */
  lemma AcceptedIsDownwardClosed(r: Resource, q: Query, q': Query)
    requires CheckQueryParams(r, q).Success?
    requires Keys(q') <= Keys(q)
    ensures CheckQueryParams(r, q').Success?
  {
    forall i | 0 <= i < |q'| ensures q'[i].0 in AllowList(r) {
      assert q'[i].0 in Keys(q');
      var j :| 0 <= j < |q| && q[j].0 == q'[i].0;
    }
  }

  /** Concrete cases: `data` takes `search` and `limit`; `meta` refuses `limit`, `where` and `conjunction`. */
  lemma ValidationExamples()
    ensures CheckQueryParams(Data, [("search", "")]) == Success(true)
    ensures CheckQueryParams(Data, [("search", ""), ("limit", "")]) == Success(true)
    ensures CheckQueryParams(Meta, [("limit", "")]) == Failure(InvalidParameters(Meta, {"limit"}))
    ensures CheckQueryParams(Meta, [("where", ""), ("conjunction", "")]).Failure?
    ensures CheckQueryParams(Stats, []) == Success(true)
    ensures CheckQueryParams(Stats, [("invalid", "")]).Failure?
  {
    var lim: Query := [("limit", "")];
    var wc: Query := [("where", ""), ("conjunction", "")];
    var bad: Query := [("invalid", "")];
    assert AllowList(Meta) == ["page"];
    assert lim[0].0 !in AllowList(Meta);
    assert wc[0].0 !in AllowList(Meta);
    assert bad[0].0 !in AllowList(Stats);
    var m := CheckQueryParams(Meta, lim);
    assert "limit" in m.error.invalid;
    assert m.error.invalid == {"limit"};
  }
}
