/**
 * Request-URL construction: validate the query, join endpoint, version,
 * resource and key with `/`, and, when a datapath is given, append it and
 * the `k=v` pairs joined by `&` after a `?`.
 */
module Url {
  import opened Wrappers
  import opened Text
  import opened Params

  /** The service's base address and API version, fixed at construction. */
  const API_ENDPOINT: string := "https://api.enigma.io"
  const API_VERSION: string := "v2"

  /** Python truthiness of the datapath argument: absent and empty are both false. */
  predicate HasDatapath(datapath: Option<string>)
  {
    datapath.Some? && datapath.value != ""
  }

  /** The `k=v` texts of a query, in its order. */
  function PairTexts(q: Query): (r: seq<string>)
    ensures |r| == |q|
    ensures forall i :: 0 <= i < |q| ==> r[i] == Join("=", [q[i].0, q[i].1])
  {
    if |q| == 0 then [] else [Join("=", [q[0].0, q[0].1])] + PairTexts(q[1..])
  }

  /** The text after `?`: the pairs joined by `&`. */
  function QueryString(q: Query): (s: string)
    ensures s == "" <==> |q| == 0
  {
    var texts := PairTexts(q);
    if |q| > 0 then
      assert texts[0] != "" by {
        assert [q[0].0, q[0].1][1..] == [q[0].1];
        assert Join("=", [q[0].0, q[0].1]) == q[0].0 + "=" + q[0].1;
      }
      assert Join("&", texts) != "" by {
        if |q| > 1 {
          assert Join("&", texts) == texts[0] + "&" + Join("&", texts[1..]);
        }
      }
      Join("&", texts)
    else
      Join("&", texts)
  }

  /** `endpoint/version/resource/key`. */
  function BaseUrl(endpoint: string, version: string, r: Resource, key: string): (u: string)
    ensures u == endpoint + "/" + version + "/" + Name(r) + "/" + key
  {
    Join4("/", endpoint, version, Name(r), key);
    Join("/", [endpoint, version, Name(r), key])
  }

  /**
   * The URL for a request, or the validation error; no URL is produced
   * for a query that does not validate.
   */
  function UrlForDatapath(endpoint: string, version: string, r: Resource, key: string,
                          datapath: Option<string>, q: Query): (res: Result<string, ParamError>)
    ensures res.Failure? <==> CheckQueryParams(r, q).Failure?
    ensures res.Failure? ==> res.error == CheckQueryParams(r, q).error
  {
    match CheckQueryParams(r, q)
    case Failure(e) => Failure(e)
    case Success(_) =>
      var base := BaseUrl(endpoint, version, r, key);
      if HasDatapath(datapath) then
        Success(Join("/", [base, datapath.value, "?" + QueryString(q)]))
      else
        Success(base)
  }

  // Shape of the URL, segment by segment

  lemma Join3(sep: string, a: string, b: string, c: string)
    ensures Join(sep, [a, b, c]) == a + sep + b + sep + c
  {
    assert [a, b, c][1..] == [b, c];
    assert [b, c][1..] == [c];
    assert Join(sep, [b, c]) == b + sep + c;
    assert Join(sep, [a, b, c]) == a + sep + (b + sep + c);
  }

  lemma Join4(sep: string, a: string, b: string, c: string, d: string)
    ensures Join(sep, [a, b, c, d]) == a + sep + b + sep + c + sep + d
  {
    assert [a, b, c, d][1..] == [b, c, d];
    Join3(sep, b, c, d);
    assert Join(sep, [a, b, c, d]) == a + sep + (b + sep + c + sep + d);
  }

  /** Without a (non-empty) datapath the URL is the base path alone: no datapath segment, no query string. */
  lemma UrlWithoutDatapath(endpoint: string, version: string, r: Resource, key: string,
                           datapath: Option<string>, q: Query)
    requires AllAllowed(r, q)
    requires datapath == None || datapath == Some("")
    ensures UrlForDatapath(endpoint, version, r, key, datapath, q)
         == Success(endpoint + "/" + version + "/" + Name(r) + "/" + key)
  {
    Join4("/", endpoint, version, Name(r), key);
  }

  /** With a datapath the URL is the base path, the datapath, then `/?` and the query string. */
  lemma UrlWithDatapath(endpoint: string, version: string, r: Resource, key: string,
                        datapath: string, q: Query)
    requires AllAllowed(r, q)
    requires datapath != ""
    ensures UrlForDatapath(endpoint, version, r, key, Some(datapath), q)
         == Success(endpoint + "/" + version + "/" + Name(r) + "/" + key + "/" + datapath + "/?" + QueryString(q))
  {
    var base := BaseUrl(endpoint, version, r, key);
    Join4("/", endpoint, version, Name(r), key);
    Join3("/", base, datapath, "?" + QueryString(q));
    assert base + "/" + datapath + "/" + ("?" + QueryString(q))
        == endpoint + "/" + version + "/" + Name(r) + "/" + key + "/" + datapath + "/?" + QueryString(q);
  }

  /** No resource name contains `?`. */
  lemma NameHasNoQuestionMark(r: Resource)
    ensures '?' !in Name(r)
  {
  }

  /** A URL built without a datapath carries no `?` unless the endpoint, version or key does. */
  lemma NoQueryWithoutDatapath(endpoint: string, version: string, r: Resource, key: string,
                               datapath: Option<string>, q: Query)
    requires '?' !in endpoint && '?' !in version && '?' !in key
    requires UrlForDatapath(endpoint, version, r, key, datapath, q).Success?
    requires datapath == None || datapath == Some("")
    ensures '?' !in UrlForDatapath(endpoint, version, r, key, datapath, q).value
  {
    var parts := [endpoint, version, Name(r), key];
    NameHasNoQuestionMark(r);
    if '?' in Join("/", parts) {
      JoinChars("/", parts, '?');
    }
  }

  // The query string: order and round trip

  /** With a datapath and no pairs the query string is empty, so the URL ends in `/?`. */
  lemma QueryStringEmpty(endpoint: string, version: string, r: Resource, key: string, datapath: string)
    requires datapath != ""
    ensures UrlForDatapath(endpoint, version, r, key, Some(datapath), [])
         == Success(BaseUrl(endpoint, version, r, key) + "/" + datapath + "/?")
  {
    EmptyQueryValid(r);
    UrlWithDatapath(endpoint, version, r, key, datapath, []);
    var u := BaseUrl(endpoint, version, r, key) + "/" + datapath + "/?";
    assert u + "" == u;
  }

  /** Adding a pair at the end appends `&k=v`: pairs appear in the caller's order. */
  lemma {:induction false} QueryStringSnoc(q: Query, k: string, v: string)
    ensures QueryString(q + [(k, v)]) == if |q| == 0 then k + "=" + v else QueryString(q) + "&" + k + "=" + v
  {
    PairTextsSnoc(q, (k, v));
    assert [k, v][1..] == [v];
    if |q| > 0 {
      JoinSnoc("&", PairTexts(q), Join("=", [k, v]));
    }
  }

  lemma {:induction false} PairTextsSnoc(q: Query, p: (string, string))
    ensures PairTexts(q + [p]) == PairTexts(q) + [Join("=", [p.0, p.1])]
  {
    if |q| > 0 {
      assert (q + [p])[1..] == q[1..] + [p];
      PairTextsSnoc(q[1..], p);
    }
  }

  /** Keys free of `&` and `=`, values free of `&`: the pairs can be read back. */
  predicate Separable(q: Query)
  {
    forall i :: 0 <= i < |q| ==> '&' !in q[i].0 && '=' !in q[i].0 && '&' !in q[i].1
  }

  /** Reads a `k=v` text back: the key runs to the first `=`. */
  function ParsePair(text: string): (string, string)
  {
    var pieces := Split(text, '=');
    (pieces[0], Join("=", pieces[1..]))
  }

  /** Reads a query string back into its pairs. */
  function ParseQuery(s: string): Query
  {
    if s == "" then []
    else
      var texts := Split(s, '&');
      seq(|texts|, i requires 0 <= i < |texts| => ParsePair(texts[i]))
  }

  lemma PairRoundTrip(k: string, v: string)
    requires '=' !in k
    ensures ParsePair(Join("=", [k, v])) == (k, v)
  {
    assert [k, v][1..] == [v];
    SplitHead(k, '=', v);
    JoinSplit(v, '=');
    var pieces := Split(k + "=" + v, '=');
    assert pieces[1..] == Split(v, '=');
  }

  lemma PairTextHasNoAmpersand(k: string, v: string)
    requires '&' !in k && '&' !in v
    ensures '&' !in Join("=", [k, v]) && Join("=", [k, v]) != ""
  {
    assert [k, v][1..] == [v];
    assert Join("=", [k, v]) == k + "=" + v;
  }

  /** The query string of a separable query parses back to exactly that query, in order. */
  lemma QueryRoundTrip(q: Query)
    requires Separable(q)
    ensures ParseQuery(QueryString(q)) == q
  {
    var texts := PairTexts(q);
    forall i | 0 <= i < |q| ensures '&' !in texts[i] && texts[i] != "" && ParsePair(texts[i]) == q[i] {
      PairTextHasNoAmpersand(q[i].0, q[i].1);
      PairRoundTrip(q[i].0, q[i].1);
    }
    if |q| > 0 {
      SplitJoin(texts, '&');
      assert QueryString(q) != "" by {
        if |q| > 1 {
          assert QueryString(q) == texts[0] + "&" + Join("&", texts[1..]);
        }
      }
    }
  }

  /** End-to-end scenario: the salaries table with no query ends in `/?`. */
  lemma DataUrlExample(key: string)
    ensures UrlForDatapath(API_ENDPOINT, API_VERSION, Data, key, Some("us.gov.whitehouse.salaries.2011"), [])
         == Success("https://api.enigma.io/v2/data/" + key + "/" + "us.gov.whitehouse.salaries.2011" + "/?")
  {
    var path := "us.gov.whitehouse.salaries.2011";
    EmptyQueryValid(Data);
    UrlWithDatapath(API_ENDPOINT, API_VERSION, Data, key, path, []);
    assert QueryString([]) == "";
    var pre := API_ENDPOINT + "/" + API_VERSION + "/" + Name(Data) + "/";
    assert pre == "https://api.enigma.io/v2/data/";
    var url := pre + key + "/" + path + "/?";
    assert url + "" == url;
  }

  /** A single pair's query string is just `k=v`. */
  lemma QueryStringSingle(k: string, v: string)
    ensures QueryString([(k, v)]) == k + "=" + v
  {
    QueryStringSnoc([], k, v);
    assert [] + [(k, v)] == [(k, v)];
  }

  /** End-to-end scenario: a stats request whose query string is exactly `select=type_of_access`. */
  lemma StatsUrlExample(key: string)
    ensures UrlForDatapath(API_ENDPOINT, API_VERSION, Stats, key, Some("us.gov.whitehouse.visitor-list"), [("select", "type_of_access")])
         == Success("https://api.enigma.io/v2/stats/" + key + "/" + "us.gov.whitehouse.visitor-list" + "/?" + "select=type_of_access")
  {
    var q: Query := [("select", "type_of_access")];
    assert q[0].0 in AllowList(Stats);
    UrlWithDatapath(API_ENDPOINT, API_VERSION, Stats, key, "us.gov.whitehouse.visitor-list", q);
    QueryStringSingle("select", "type_of_access");
    assert "select" + "=" + "type_of_access" == "select=type_of_access";
    assert API_ENDPOINT + "/" + API_VERSION + "/" + Name(Stats) + "/" == "https://api.enigma.io/v2/stats/";
  }
}
