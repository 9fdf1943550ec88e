# pynigma client, modelled in Dafny

pynigma is a small Python client for the Enigma tabular-data web API. It
has five read-only resources: `data`, `meta`, `stats`, `export` and
`limits`. This project models the client's logic and proves properties
of it:

- **Query validation** (`Params`). Each resource has a fixed allow-list of
  query-parameter names. A query passes validation exactly when every
  name it supplies is on that list. Otherwise validation fails and names
  the resource and the offending names.
- **Request-URL construction** (`Url`). The URL is
  `endpoint/version/resource/key`. When the datapath is non-empty, it is
  followed by `/<datapath>/?` and the `k=v` pairs joined by `&`, in the
  caller's order. No URL is produced for a query that fails validation.
- **The client object** (`Client.EnigmaApi`). Its single mutable field,
  `requestUrl`, is assigned only when the URL could be built. One method
  models each public operation. Each method picks its resource and
  datapath, and `GetMetadata` annotates the response's columns.
- **Metadata type inference** (`Metadata`). A column's `type` tag is split
  on `_` and its first segment is dropped, whatever that segment is. The
  remaining segments are joined with spaces and looked up in the
  17-entry PostgreSQL-to-Python table, with `str` as the default. The
  result is written in place into the column as `python_type`, one
  column at a time, in list order.

`Text` holds the two Python string primitives the client uses:
`sep.join(parts)` and `s.split(c)`. It proves that they undo each other.
`Wrappers` holds `Option`, `Result` and `Outcome`. These stand in for
Python's `None` and for the exceptions the client raises.

Modelling decisions:

- Queries are `seq<(string, string)>`, so that insertion order can be
  stated. The order of Python's `**kwargs` is the call's argument order (Python 3.6 and later, PEP 468).
- The datapath is `Option<string>`. `Some("")` behaves like `None`,
  because Python treats an empty string as false.
- A column record is a `map<string, Value>`, one JSON object. A value is
  a string, a Python type, or any other JSON value. Records are values,
  so two slots never share one record.
- The HTTP exchange is not modelled. Its decoded response is passed into
  `Request` as an opaque value of a type parameter `R`, and it is returned
  unchanged. For `GetMetadata`, the response's `result.columns` list is
  passed as an array, which is annotated in place.
- A failed validation raises before `self.request_url` is assigned, so
  the field keeps its previous value (`pynigma/client.py:143-145`,
  `tests/test_client.py:69-77`).

## Model

| member | source | states |
|---|---|---|
| `Params.CheckQueryParams` | pynigma/client.py:124-131 | Succeeds with `true` exactly when every supplied name is in the resource's allow-list. Otherwise fails with that resource and a non-empty set: exactly the supplied names that are not allowed (the set difference). |
| `Params.AllowList` | pynigma/client.py:103-111 | Each resource's allow-list, looked up in the table. It is empty exactly for `limits`, and no allowed name contains `&` or `=`. |
| `Params.EmptyQueryValid` | pynigma/client.py:124-131 | The empty query passes validation for every resource. |
| `Params.LimitsRejectsEveryParameter` | pynigma/client.py:103-111 | `limits` has an empty allow-list. Every non-empty query fails for it, and the invalid set is the whole key set. |
| `Params.MetaAcceptsOnlyPage` | pynigma/client.py:103-104 | A query passes for `meta` if and only if it names only `page`. |
| `Params.AcceptedIsDownwardClosed` | pynigma/client.py:125-127 | A query whose names are a subset of an accepted query's names is accepted too. |
| `Params.ValidationExamples` | tests/test_client.py:19-51 | `data` accepts `search` and `search,limit`. `meta` rejects `limit` (invalid set `{limit}`) and `where,conjunction`. `stats` accepts the empty query and rejects `invalid`, as the `stats` case of `_request` at tests/test_client.py:69-77 also expects. |
| `Url.UrlForDatapath` | pynigma/client.py:133-141 | Fails exactly when validation fails, and then carries validation's error. No URL is produced for a rejected query. |
| `Url.BaseUrl` | pynigma/client.py:135-136 | The four segments joined by `/`: exactly `endpoint/version/resource/key`. |
| `Url.PairTexts` | pynigma/client.py:139 | One `k=v` text per pair, as many as there are pairs, in the query's order. |
| `Url.QueryString` | pynigma/client.py:139-140 | The pairs joined by `&`. It is empty exactly when the query has no pairs. |
| `Url.UrlWithoutDatapath` | pynigma/client.py:135-141 | Python's `if datapath:` at pynigma/client.py:138 is false exactly for `None` and the empty string. For a valid query with such a datapath, the URL is exactly `endpoint/version/resource/key`. |
| `Url.UrlWithDatapath` | pynigma/client.py:135-140 | For a valid query with a non-empty datapath, the URL is exactly `endpoint/version/resource/key/datapath/?` followed by the query string. |
| `Url.NoQueryWithoutDatapath` | pynigma/client.py:137-141 | When the datapath is `None` or the empty string, the URL contains no `?`, unless the endpoint, version or key does. |
| `Url.QueryStringEmpty` | pynigma/client.py:137-141 | With a non-empty datapath and no pairs, the URL is the base URL, `/`, the datapath and `/?`. |
| `Url.QueryStringSnoc` | pynigma/client.py:139-140 | Appending a pair `(k, v)` appends `&k=v`, or just `k=v` for a first pair. The pairs appear in the caller's order. |
| `Url.QueryStringSingle` | pynigma/client.py:139 | One pair gives exactly `k=v`. |
| `Url.QueryRoundTrip` | pynigma/client.py:139-140 | Parsing the query string back gives exactly the query, in order. This holds when keys contain neither `&` nor `=` and values contain no `&`. |
| `Url.DataUrlExample` | pynigma/client.py:166 | `get_data` on `us.gov.whitehouse.salaries.2011` with no query builds `https://api.enigma.io/v2/data/<key>/us.gov.whitehouse.salaries.2011/?`. |
| `Url.StatsUrlExample` | pynigma/client.py:244-245 | A stats request with `select=type_of_access` builds a URL whose query string is exactly `select=type_of_access`. |
| `Metadata.TypeKey` | pynigma/client.py:55 | The tag split on `_`, with its first segment dropped, and the rest joined by spaces. The key never contains `_`. |
| `Metadata.TypeOf` | pynigma/client.py:54-55 | The inferred type of a tag. A type other than `str` is always the table entry for the tag's key. |
| `Metadata.TypeOfIgnoresPrefix` | pynigma/client.py:54-55 | Whatever the first `_`-segment of the tag is, only the rest decides the type: the rest split on `_` and joined by spaces, then looked up. |
| `Metadata.TypeOfSpelledName` | pynigma/client.py:31-55 | The tag `<prefix>_<name with spaces as _>` gets the table's type for `name`, or `str` when `name` is not in the table. |
| `Metadata.TypeOfOneWord` | pynigma/client.py:54-55 | A tag `<prefix>_<w>` is looked up under `w`. |
| `Metadata.TypeOfTwoWords` | pynigma/client.py:54-55 | A tag `<prefix>_<w1>_<w2>` is looked up under `w1 w2`. |
| `Metadata.EveryCodecEntryReachable` | pynigma/client.py:31-49 | Every one of the 17 table rows is reached by the tag the service sends for it, `type_` plus the name with spaces as underscores: `Lookup` (`data_type_codec.get(key, str)`) returns that row's entry. |
| `Metadata.VarcharOnlyByDefault` | pynigma/client.py:48 | The table has the misspelt key `varcahr` and not `varchar`. So `type_varchar` maps to `str` only by the default of `Lookup` (`data_type_codec.get(key, str)`). |
| `Metadata.UnsegmentedTagIsStr` | pynigma/client.py:54-55 | A tag with no `_` leaves an empty key and defaults to `str`. |
| `Metadata.NumericIsDecimal` | tests/test_client.py:129-136 | `type_numeric` maps to `Decimal`. |
| `Metadata.DoublePrecisionIsFloat` | pynigma/client.py:38 | `type_double_precision` maps to `Float`, through the two-word key `double precision`. |
| `Metadata.UnknownIsStr` | tests/test_client.py:138-144 | `type_unknown` maps to `str`: `Lookup` (`data_type_codec.get(key, str)`) falls back to its default for a key not in the table. |
| `Metadata.UnknownTagIsStr` | pynigma/client.py:54-55 | `type_unknown_tag` maps to `str`. |
| `Metadata.Annotate` | pynigma/client.py:54-55 | The annotated column keeps every key and value except `python_type`. `python_type` is added or overwritten with the type inferred from the column's `type` tag. |
| `Metadata.AnnotateColumns` | pynigma/client.py:51-56 | The column list after the loop. It has the same length, and each column is either unchanged or annotated from its own `type` tag. |
| `Metadata.FirstUntagged` | pynigma/client.py:51-55 | Where the loop stops: every column before this index has a string `type`, and the column at it (if any) does not. |
| `Metadata.AnnotateColumnsAt` | pynigma/client.py:51-56 | In the list after the loop, the columns before the first one lacking a string `type` are annotated. That first one and all columns after it are untouched. |
| `Metadata.AllTaggedAllAnnotated` | pynigma/client.py:51-56 | When every column has a string `type`, every column is annotated, each with its own inferred type. |
| `Metadata.AnnotateIdempotent` | pynigma/client.py:54-55 | Annotating a column twice gives the same column as annotating it once. |
| `Metadata.MapMetadataDataType` | pynigma/client.py:27-56 | Updates the array in place to the annotated list. Passes exactly when every column has a string `type`. Otherwise fails at the first column that lacks one, leaving the earlier columns annotated. |
| `Client.EnigmaApi.constructor` | pynigma/client.py:113-118 | A fresh client keeps the key, uses `https://api.enigma.io` and `v2`, and has `requestUrl == None`. |
| `Client.EnigmaApi.UrlFor` | pynigma/client.py:133-141 | The client's URL for a request exists exactly when the query validates. |
| `Client.EnigmaApi.Request` | pynigma/client.py:143-145 | With a valid query, records the built URL and returns the response. With an invalid query, fails with validation's error and leaves `requestUrl` as it was. |
| `Client.EnigmaApi.GetData` | pynigma/client.py:187 | Requests resource `data` with the caller's datapath. The URL is recorded as by `Request`. A rejected query fails with validation's error: the resource and the invalid names. |
| `Client.EnigmaApi.GetStats` | pynigma/client.py:269 | Requests resource `stats` with the caller's datapath. The URL is recorded as by `Request`. A rejected query fails with validation's error. |
| `Client.EnigmaApi.GetExport` | pynigma/client.py:302 | Requests resource `export` with the caller's datapath. The URL is recorded as by `Request`. A rejected query fails with validation's error. |
| `Client.EnigmaApi.GetLimits` | pynigma/client.py:329 | Requests resource `limits` with no datapath and no query. Always succeeds, and records exactly `endpoint/version/limits/key`. |
| `Client.EnigmaApi.GetMetadata` | pynigma/client.py:226-230 | Requests resource `meta` with the caller's datapath. A rejected query fails and leaves the columns untouched. Otherwise the columns are annotated as by `MapMetadataDataType`. |
| `Client.InvalidRequestOnFreshClient` | tests/test_client.py:69-77 | On a fresh client, a stats request with parameter `invalid` leaves the request URL `None`. |
| `Client.LimitsRequestOnFreshClient` | tests/test_client.py:85-91 | On a fresh client, `get_limits` records `https://api.enigma.io/v2/limits/<key>`. |

## Left out

- The HTTP GET and `res.json()` (`pynigma/client.py:146-152`) are network I/O and foreign library calls. The decoded response is a parameter of the model and is returned unchanged.
- The `warnings.warn` path and the `except res.status_code != 200` / `finally: return` construct are left out. They are part of the same network step, and their control flow depends on `res`, which may be unbound there.
- The JSON envelope of a metadata response beyond `result.columns` is opaque remote data. Only the columns list is modelled, as the array that `GetMetadata` updates.
- `Metadata.MapMetadataDataType`: column records are modelled as values, so a dict listed twice, or also held elsewhere, is not shared. Decoded JSON never shares them. In Python, on the failure path, a later entry that is the same dict as an earlier one would already be annotated.
- The arity checks are left out: `get_limits` with a datapath, and the other `get_*` without one, raise `TypeError` in Python. These are signature errors of the language, and the Dafny signatures rule them out. `get_data`, `get_stats`, `get_export` and `get_metadata` take a `string` datapath, as their docstrings declare (`datapath : str`). An explicit `datapath=None` would build the bare base URL and drop the query. That case is left to `Request`, whose datapath is `Option<string>`.
- Three parameter names are not modelled as Python reports them: `self`, `datapath` and `resource`. A query naming one of them collides with a parameter of `get_*` or `_request`, so Python raises `TypeError` at the call (`pynigma/client.py:187`, `226`, `269`, `302`). The model reports a validation failure instead, since no allow-list contains these names. Either way, `request_url` is left unchanged.
- `__repr__` (`pynigma/client.py:120-122`) is left out as fixed formatting of the endpoint and version.
- The wording of the `ValueError` message is not modelled. The error carries the resource and the set of invalid names, which is what the message is formatted from.
- Resource names outside the five are not modelled. `_param_mapping[resource]` would raise `KeyError` for them, but every caller passes a fixed name, and the model's `Resource` has exactly these five.
- Column `type` values are decoded JSON, so a tag is a string or another JSON value. Python would also accept the class `str` itself as a `type` value: `str.split('_')` would then return `['_']`, giving an empty key and `python_type = str` without an exception. Decoded JSON cannot produce this, so it is not modelled.
- Query values are strings. A non-string value would make Python's `'='.join` raise `TypeError`.
- Repeated keys in a query are not excluded. Python keyword arguments cannot repeat, and a repeated pair would simply appear twice in the query string.
- `setup.py` is packaging only and is not part of this model.
