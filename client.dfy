/**
 * The API client: an object holding the key, endpoint and version, and
 * one mutable field, the URL of the last request that got past
 * validation. Each public operation picks a resource and a datapath and
 * goes through `Request`; the HTTP exchange itself is outside the model,
 * and its decoded response is passed in as an opaque value.
 */
module Client {
  import opened Wrappers
  import opened Params
  import opened Url
  import opened Metadata

  /** Why `GetMetadata` fails: a rejected query, or a column without a string `type`. */
  datatype MetadataError = InvalidQuery(paramError: ParamError) | UntypedColumn(columnError: ColumnError)

  class EnigmaApi {
    const clientKey: string
    const endpoint: string
    const version: string
    var requestUrl: Option<string>

    /** A fresh client uses the fixed endpoint and version and has made no request yet. */
    constructor (clientKey: string)
      ensures this.clientKey == clientKey
      ensures endpoint == API_ENDPOINT && version == API_VERSION
      ensures requestUrl == None
    {
      this.clientKey := clientKey;
      endpoint := API_ENDPOINT;
      version := API_VERSION;
      requestUrl := None;
    }

    /** The URL this client builds for a request, or the validation error. */
    function UrlFor(resource: Resource, datapath: Option<string>, query: Query): (res: Result<string, ParamError>)
      ensures res.Success? <==> AllAllowed(resource, query)
    {
      UrlForDatapath(endpoint, version, resource, clientKey, datapath, query)
    }

    /**
     * The request URL after a request: the URL built for it when the query
     * validated, and otherwise `prev`, the value before the call.
     */
    ghost predicate Recorded(prev: Option<string>, resource: Resource, datapath: Option<string>, query: Query)
      reads this
    {
      match UrlFor(resource, datapath, query)
      case Success(u) => requestUrl == Some(u)
      case Failure(_) => requestUrl == prev
    }

    /**
     * `_request`: records the URL only when it could be built, then hands
     * back the response of the (unmodelled) GET; a rejected query raises
     * before anything is recorded.
     */
    method Request<R>(resource: Resource, datapath: Option<string>, query: Query, response: R)
      returns (r: Result<R, ParamError>)
      modifies this
      ensures Recorded(old(requestUrl), resource, datapath, query)
      ensures r.Success? <==> AllAllowed(resource, query)
      ensures r.Success? ==> r.value == response
      ensures r.Failure? ==> r.error == CheckQueryParams(resource, query).error && requestUrl == old(requestUrl)
    {
      match UrlFor(resource, datapath, query)
      case Failure(e) =>
        r := Failure(e);
      case Success(u) =>
        requestUrl := Some(u);
        r := Success(response);
    }

    /** `get_data`: the data resource with the caller's datapath. */
    method GetData<R>(datapath: string, query: Query, response: R) returns (r: Result<R, ParamError>)
      modifies this
      ensures Recorded(old(requestUrl), Data, Some(datapath), query)
      ensures r.Success? <==> AllAllowed(Data, query)
      ensures r.Success? ==> r.value == response
      ensures r.Failure? ==> r.error == CheckQueryParams(Data, query).error
    {
      r := Request(Data, Some(datapath), query, response);
    }

    /** `get_stats`: the stats resource with the caller's datapath. */
    method GetStats<R>(datapath: string, query: Query, response: R) returns (r: Result<R, ParamError>)
      modifies this
      ensures Recorded(old(requestUrl), Stats, Some(datapath), query)
      ensures r.Success? <==> AllAllowed(Stats, query)
      ensures r.Success? ==> r.value == response
      ensures r.Failure? ==> r.error == CheckQueryParams(Stats, query).error
    {
      r := Request(Stats, Some(datapath), query, response);
    }

    /** `get_export`: the export resource with the caller's datapath. */
    method GetExport<R>(datapath: string, query: Query, response: R) returns (r: Result<R, ParamError>)
      modifies this
      ensures Recorded(old(requestUrl), Export, Some(datapath), query)
      ensures r.Success? <==> AllAllowed(Export, query)
      ensures r.Success? ==> r.value == response
      ensures r.Failure? ==> r.error == CheckQueryParams(Export, query).error
    {
      r := Request(Export, Some(datapath), query, response);
    }

    /**
     * `get_limits`: the limits resource, no datapath and no query, so it
     * always validates and records the bare base path.
     */
    method GetLimits<R>(response: R) returns (r: Result<R, ParamError>)
      modifies this
      ensures Recorded(old(requestUrl), Limits, None, [])
      ensures r == Success(response)
      ensures requestUrl == Some(endpoint + "/" + version + "/" + "limits" + "/" + clientKey)
    {
      EmptyQueryValid(Limits);
      UrlWithoutDatapath(endpoint, version, Limits, clientKey, None, []);
      r := Request(Limits, None, [], response);
    }

    /**
     * `get_metadata`: the meta resource with the caller's datapath; on
     * success the response's column records are annotated in place with
     * their `python_type`.
     */
    method GetMetadata<R>(datapath: string, query: Query, response: R, columns: array<Column>)
      returns (r: Result<R, MetadataError>)
      modifies this, columns
      ensures Recorded(old(requestUrl), Meta, Some(datapath), query)
      ensures !AllAllowed(Meta, query) ==>
        r == Failure(InvalidQuery(CheckQueryParams(Meta, query).error)) && columns[..] == old(columns[..])
      ensures AllAllowed(Meta, query) ==> columns[..] == AnnotateColumns(old(columns[..]))
      ensures AllAllowed(Meta, query) ==> (r.Success? <==> FirstUntagged(old(columns[..])) == columns.Length)
      ensures AllAllowed(Meta, query) && r.Failure? ==>
        r.error == UntypedColumn(MissingTypeTag(FirstUntagged(old(columns[..]))))
      ensures r.Success? ==> r.value == response
    {
      var res := Request(Meta, Some(datapath), query, response);
      match res
      case Failure(e) =>
        r := Failure(InvalidQuery(e));
      case Success(v) =>
        var mapped := MapMetadataDataType(columns);
        match mapped
        case Pass =>
          r := Success(v);
        case Fail(e) =>
          r := Failure(UntypedColumn(e));
    }
  }

  /** A rejected stats query on a fresh client leaves its request URL unset. */
  method InvalidRequestOnFreshClient(key: string) returns (url: Option<string>)
    ensures url == None
  {
    var api := new EnigmaApi(key);
    var q: Query := [("invalid", "")];
    assert q[0].0 !in AllowList(Stats);
    var _ := api.Request(Stats, Some("us.gov.whitehouse.salaries.2011"), q, ());
    url := api.requestUrl;
  }

  /** A limits request records `endpoint/version/limits/key` and nothing more. */
  method LimitsRequestOnFreshClient(key: string) returns (url: Option<string>)
    ensures url == Some(API_ENDPOINT + "/" + API_VERSION + "/limits/" + key)
  {
    var api := new EnigmaApi(key);
    var _ := api.GetLimits(());
    url := api.requestUrl;
    assert API_ENDPOINT + "/" + API_VERSION + "/" + "limits" + "/" == API_ENDPOINT + "/" + API_VERSION + "/limits/";
  }
}
