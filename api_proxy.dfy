/**
 * The authenticated API-forwarding proxy of users/api_proxy.py.
 *
 * A browser request to the proxy is forwarded to the upstream API with the
 * bearer tokens taken from the request's cookies (or from a pair rotated
 * earlier in the same request). A 401 whose detail says the access token
 * expired triggers at most one refresh per inbound request and one retry of
 * the original call; the proxy then writes rotated, issued or cleared
 * cookies with fixed lifetimes.
 *
 * The upstream API and the refresh endpoint are oracles: `upstream(call, k)`
 * is the reply to the k-th upstream call of the request, `refresher(token)`
 * the reply of the refresh endpoint to a refresh token. A response's cookie
 * jar is a map keyed by cookie name, as Django's is: setting a cookie twice
 * keeps only the second.
 */
module ApiProxy {
  import opened Wrappers
  import opened Strings

  const DefaultApiBase: string := "https://api.salona.me"
  const LoginPath: string := "api/v1/users/auth/login"
  const ExpiredPhrase: string := "access token has expired"
  const ExpiredPhraseCapitalised: string := "Access token has expired"
  const Epoch: string := "Thu, 01 Jan 1970 00:00:00 GMT"

  /** Cookie lifetimes in seconds. */
  const RotatedAccessAge: nat := 3600 * 6
  const RotatedRefreshAge: nat := 3600 * 24
  const LoginAccessAge: nat := 3600 * 24 * 7
  const LoginRefreshAge: nat := 3600 * 24 * 30

  /** Timeout in seconds of an upstream call. */
  const UpstreamTimeout: nat := 30

  // ---------------------------------------------------------------------
  // Upstream URL

  /** `APIProxyView.get_api_url`: drop one leading '/', then make sure the path starts with "api/". */
  function ApiUrl(base: string, path: string): (url: string)
    ensures StartsWith(url, base + "/api/")
  {
    var p := if StartsWith(path, "/") then path[1..] else path;
    var q := if StartsWith(p, "api/") then p else "api/" + p;
    assert StartsWith(q, "api/");
    assert (base + "/" + q)[..|base| + 5] == base + "/" + q[..4];
    base + "/" + q
  }

  /** The four spellings "x", "/x", "api/x" and "/api/x" of a path reach the same upstream URL. */
  lemma ApiUrlSpellings(base: string, x: string)
    requires !StartsWith(x, "/") && !StartsWith(x, "api/")
    ensures ApiUrl(base, x) == base + "/api/" + x
    ensures ApiUrl(base, "/" + x) == base + "/api/" + x
    ensures ApiUrl(base, "api/" + x) == base + "/api/" + x
    ensures ApiUrl(base, "/api/" + x) == base + "/api/" + x
  {
    assert ("/" + x)[1..] == x;
    assert ("/api/" + x)[1..] == "api/" + x;
    assert StartsWith("api/" + x, "api/");
    assert ("api/" + x)[0] == 'a';
  }

  /** Only one leading '/' is removed: "//x" keeps its second slash. */
  lemma ApiUrlStripsOneSlash(base: string, x: string)
    ensures ApiUrl(base, "//" + x) == base + "/api//" + x
  {
    assert ("//" + x)[1..] == "/" + x;
    assert ("/" + x)[0] == '/';
  }

  // ---------------------------------------------------------------------
  // JSON values and ensure_utc_params

  /** A JSON value as Python's `json` module produces it; numbers are integers here. */
  datatype Json =
    | JNull
    | JBool(b: bool)
    | JNum(n: int)
    | JStr(s: string)
    | JArr(items: seq<Json>)
    | JObj(fields: seq<Member>)

  /** One key/value entry of a JSON object, in document order. */
  datatype Member = Member(key: string, value: Json)

  /** Python truthiness of a decoded JSON value. */
  predicate Truthy(j: Json)
  {
    match j
    case JNull => false
    case JBool(b) => b
    case JNum(n) => n != 0
    case JStr(s) => s != ""
    case JArr(items) => items != []
    case JObj(fields) => fields != []
  }

  /** `dict.get(key)`: the value of the last entry with that key, as `json.loads` keeps the last duplicate. */
  function Lookup(fields: seq<Member>, key: string): (r: Option<Json>)
    ensures r.Some? ==> exists i :: 0 <= i < |fields| && fields[i] == Member(key, r.value)
    ensures r.None? ==> forall i :: 0 <= i < |fields| ==> fields[i].key != key
    decreases |fields|
  {
    if |fields| == 0 then None
    else if fields[|fields| - 1].key == key then Some(fields[|fields| - 1].value)
    else
      var r := Lookup(fields[..|fields| - 1], key);
      assert r.Some? ==> fields[..|fields| - 1] <= fields;
      r
  }

  /** Of several entries with the same key, the last one wins. */
  lemma {:induction false} LookupLastWins(fields: seq<Member>, i: nat)
    requires i < |fields| && forall j :: i < j < |fields| ==> fields[j].key != fields[i].key
    ensures Lookup(fields, fields[i].key) == Some(fields[i].value)
    decreases |fields|
  {
    if i < |fields| - 1 {
      var front := fields[..|fields| - 1];
      assert front[i] == fields[i];
      LookupLastWins(front, i);
    }
  }

  /** The field-name fragments that mark a time parameter. */
  const TimePatterns: seq<string> := [
    "time", "date", "datetime", "start", "end", "begin", "from", "to",
    "created", "updated", "scheduled", "appointment", "booking",
    "started_at", "ended_at", "created_at", "updated_at", "start_at", "end_at"]

  predicate IsTimeField(key: string)
  {
    exists i :: 0 <= i < |TimePatterns| && Contains(ToLower(key), TimePatterns[i])
  }

  /** `convert_value`: an ISO datetime string and every other value are both returned as they are. */
  function ConvertValue(v: Json): Json { v }

  /** `process_dict` on the object `o`. */
  function ProcessDict(o: Json): (r: Json)
    requires o.JObj?
    ensures r.JObj? && |r.fields| == |o.fields|
    decreases o, 1
  {
    JObj(seq(|o.fields|, i requires 0 <= i < |o.fields| =>
      Member(o.fields[i].key, ProcessEntry(o.fields[i].key, o.fields[i].value))))
  }

  /** The value `process_dict` stores under `key`. */
  function ProcessEntry(key: string, v: Json): Json
    decreases v, 2
  {
    match v
    case JNull => v
    case JObj(_) => ProcessDict(v)
    case JArr(items) =>
      JArr(seq(|items|, i requires 0 <= i < |items| =>
        if items[i].JObj? then ProcessDict(items[i])
        else if items[i].JArr? then ProcessList(items[i])
        else ConvertValue(items[i])))
    case _ => if IsTimeField(key) && v.JStr? then ConvertValue(v) else v
  }

  /** `process_list` on the array `l`. */
  function ProcessList(l: Json): (r: Json)
    requires l.JArr?
    ensures r.JArr? && |r.items| == |l.items|
    decreases l, 1
  {
    JArr(seq(|l.items|, i requires 0 <= i < |l.items| =>
      if l.items[i].JObj? then ProcessDict(l.items[i])
      else if l.items[i].JArr? then ProcessList(l.items[i])
      else l.items[i]))
  }

  /**
   * `APIProxyView.ensure_utc_params`: a falsy value or a non-container is
   * returned unchanged; an object or array is rebuilt entry by entry.
   */
  function EnsureUtcParams(data: Json): (r: Json)
    ensures !Truthy(data) || !(data.JObj? || data.JArr?) ==> r == data
    ensures data.JObj? ==> r.JObj? && |r.fields| == |data.fields|
    ensures data.JArr? ==> r.JArr? && |r.items| == |data.items|
  {
    if !Truthy(data) || !(data.JObj? || data.JArr?) then data
    else if data.JObj? then ProcessDict(data)
    else ProcessList(data)
  }

  lemma {:induction false} ProcessDictIdentity(o: Json)
    requires o.JObj?
    ensures ProcessDict(o) == o
    decreases o, 1
  {
    var r := ProcessDict(o);
    forall i | 0 <= i < |o.fields| ensures r.fields[i] == o.fields[i] {
      ProcessEntryIdentity(o.fields[i].key, o.fields[i].value);
    }
    assert r.fields == o.fields;
  }

  lemma {:induction false} ProcessEntryIdentity(key: string, v: Json)
    ensures ProcessEntry(key, v) == v
    decreases v, 2
  {
    match v
    case JObj(_) => ProcessDictIdentity(v);
    case JArr(items) =>
      var r := ProcessEntry(key, v);
      forall i | 0 <= i < |items| ensures r.items[i] == items[i] {
        if items[i].JObj? { ProcessDictIdentity(items[i]); }
        else if items[i].JArr? { ProcessListIdentity(items[i]); }
      }
      assert r.items == items;
    case _ =>
  }

  lemma {:induction false} ProcessListIdentity(l: Json)
    requires l.JArr?
    ensures ProcessList(l) == l
    decreases l, 1
  {
    var r := ProcessList(l);
    forall i | 0 <= i < |l.items| ensures r.items[i] == l.items[i] {
      if l.items[i].JObj? { ProcessDictIdentity(l.items[i]); }
      else if l.items[i].JArr? { ProcessListIdentity(l.items[i]); }
    }
    assert r.items == l.items;
  }

  /** `ensure_utc_params` is the identity: same keys, same list lengths, same leaves. */
  lemma EnsureUtcParamsIdentity(data: Json)
    ensures EnsureUtcParams(data) == data
  {
    if data.JObj? { ProcessDictIdentity(data); }
    else if data.JArr? { ProcessListIdentity(data); }
  }

  // ---------------------------------------------------------------------
  // Inbound requests, upstream calls and replies

  datatype HttpMethod = GET | POST | PUT | PATCH | DELETE

  datatype UploadedFile = UploadedFile(field: string, name: string, content: seq<int>, contentType: string)

  /**
   * What `forward_request` reads from the inbound request besides its
   * cookies: the method, the content type ("" when absent), the query and
   * form dictionaries as key/value pairs, the uploaded files, and the body
   * decoded as JSON (`None` when `json.loads` raises).
   */
  datatype Inbound = Inbound(
    verb: HttpMethod,
    contentType: string,
    query: seq<(string, string)>,
    form: seq<(string, string)>,
    files: seq<UploadedFile>,
    body: Option<Json>)

  /** No two members of an object share a key, as in a Python `dict`. */
  predicate DistinctKeys(fields: seq<Member>)
  {
    forall i, j :: 0 <= i < j < |fields| ==> fields[i].key != fields[j].key
  }

  /** In an object without repeated keys, the member holding a key is the one `Lookup` finds. */
  lemma LookupDistinct(fields: seq<Member>, m: Member)
    requires DistinctKeys(fields) && m in fields
    ensures Lookup(fields, m.key) == Some(m.value)
  {
    var r := Lookup(fields, m.key);
    var i :| 0 <= i < |fields| && fields[i] == m;
    var j :| 0 <= j < |fields| && fields[j] == Member(m.key, r.value);
    assert fields[i].key == fields[j].key;
  }

  /** Python `d[key] = v`: an existing key keeps its place and takes the new value, a new key goes last. */
  function Put(fields: seq<Member>, key: string, v: Json): (r: seq<Member>)
    ensures |r| <= |fields| + 1
  {
    if fields == [] then [Member(key, v)]
    else if fields[0].key == key then [Member(key, v)] + fields[1..]
    else [fields[0]] + Put(fields[1..], key, v)
  }

  /** After `d[key] = v`, the dictionary holds `v` under `key` and every other entry as before. */
  lemma {:induction false} PutMembers(fields: seq<Member>, key: string, v: Json)
    requires DistinctKeys(fields)
    ensures forall m :: m in Put(fields, key, v) <==> (m in fields && m.key != key) || m == Member(key, v)
    decreases |fields|
  {
    if fields == [] {
    } else if fields[0].key == key {
      DistinctSplit(fields);
      assert fields == [fields[0]] + fields[1..];
    } else {
      DistinctSplit(fields);
      PutMembers(fields[1..], key, v);
      assert fields == [fields[0]] + fields[1..];
    }
  }

  /** `d[key] = v` never repeats a key. */
  lemma {:induction false} PutDistinct(fields: seq<Member>, key: string, v: Json)
    requires DistinctKeys(fields)
    ensures DistinctKeys(Put(fields, key, v))
    decreases |fields|
  {
    if fields == [] {
    } else {
      DistinctSplit(fields);
      if fields[0].key == key {
        DistinctCons(Member(key, v), fields[1..]);
      } else {
        var tail := Put(fields[1..], key, v);
        PutMembers(fields[1..], key, v);
        PutDistinct(fields[1..], key, v);
        DistinctCons(fields[0], tail);
      }
    }
  }

  /** An object without repeated keys: its first key is not repeated later, nor is any key of the rest. */
  lemma DistinctSplit(fields: seq<Member>)
    requires DistinctKeys(fields) && fields != []
    ensures DistinctKeys(fields[1..])
    ensures forall m :: m in fields[1..] ==> m.key != fields[0].key
  {
    forall i, j | 0 <= i < j < |fields[1..]| ensures fields[1..][i].key != fields[1..][j].key {
      assert fields[i + 1].key != fields[j + 1].key;
    }
    forall m | m in fields[1..] ensures m.key != fields[0].key {
      var i :| 0 <= i < |fields[1..]| && fields[1..][i] == m;
      assert fields[0].key != fields[i + 1].key;
    }
  }

  lemma DistinctCons(m: Member, rest: seq<Member>)
    requires DistinctKeys(rest) && forall x :: x in rest ==> x.key != m.key
    ensures DistinctKeys([m] + rest)
  {
    var r := [m] + rest;
    forall i, j | 0 <= i < j < |r| ensures r[i].key != r[j].key {
      assert r[j] == rest[j - 1];
      if i > 0 { assert r[i] == rest[i - 1]; } else { assert r[j] in rest; }
    }
  }

  /** The value `QueryDict.__getitem__` gives for `key`: the last one posted under it. */
  function LastValue(pairs: seq<(string, string)>, key: string): (r: Option<string>)
    ensures r.None? <==> forall i :: 0 <= i < |pairs| ==> pairs[i].0 != key
    decreases |pairs|
  {
    if pairs == [] then None
    else if pairs[|pairs| - 1].0 == key then Some(pairs[|pairs| - 1].1)
    else
      var r := LastValue(pairs[..|pairs| - 1], key);
      assert forall i :: 0 <= i < |pairs| - 1 ==> pairs[..|pairs| - 1][i] == pairs[i];
      r
  }

  /** The entries of `QueryDict.dict()`, built one posted pair at a time. */
  function FormFields(pairs: seq<(string, string)>): seq<Member>
    decreases |pairs|
  {
    if pairs == [] then []
    else Put(FormFields(pairs[..|pairs| - 1]), pairs[|pairs| - 1].0, JStr(pairs[|pairs| - 1].1))
  }

  /** A query or form dictionary as a JSON object of strings. */
  function FormJson(pairs: seq<(string, string)>): (j: Json)
    ensures j.JObj?
  {
    JObj(FormFields(pairs))
  }

  /** `QueryDict.dict()` holds each key once. */
  lemma {:induction false} FormFieldsDistinct(pairs: seq<(string, string)>)
    ensures DistinctKeys(FormFields(pairs))
    decreases |pairs|
  {
    if pairs != [] {
      var front := pairs[..|pairs| - 1];
      FormFieldsDistinct(front);
      PutDistinct(FormFields(front), pairs[|pairs| - 1].0, JStr(pairs[|pairs| - 1].1));
    }
  }

  /** A key no member carries is not found. */
  lemma LookupAbsent(fields: seq<Member>, key: string)
    requires forall m :: m in fields ==> m.key != key
    ensures Lookup(fields, key).None?
  {
  }

  /** The JSON string `QueryDict.dict()` stores for a key, if it was posted. */
  function StrValue(o: Option<string>): Option<Json>
  {
    match o
    case None => None
    case Some(v) => Some(JStr(v))
  }

  /** A key posted several times keeps, in `QueryDict.dict()`, the last value posted under it. */
  lemma {:induction false} FormJsonLastValue(pairs: seq<(string, string)>, key: string)
    ensures DistinctKeys(FormJson(pairs).fields)
    ensures Lookup(FormJson(pairs).fields, key) == StrValue(LastValue(pairs, key))
    decreases |pairs|
  {
    FormFieldsDistinct(pairs);
    if pairs != [] {
      var front := pairs[..|pairs| - 1];
      var (k, v) := pairs[|pairs| - 1];
      var before := FormFields(front);
      var after := FormFields(pairs);
      FormJsonLastValue(front, key);
      PutMembers(before, k, JStr(v));
      assert after == Put(before, k, JStr(v));
      if k == key {
        LookupDistinct(after, Member(k, JStr(v)));
      } else {
        assert LastValue(pairs, key) == LastValue(front, key);
        var was := Lookup(before, key);
        if was.Some? {
          var i :| 0 <= i < |before| && before[i] == Member(key, was.value);
          assert before[i] in after;
          LookupDistinct(after, before[i]);
        } else {
          LookupAbsent(after, key);
        }
      }
    }
  }

  // The `files` dictionary: `request.FILES.items()` yields one pair per
  // field, holding the last file uploaded under it.

  /** No two uploads share a field, as in a Python `dict` keyed by field. */
  predicate DistinctFields(fs: seq<UploadedFile>)
  {
    forall i, j :: 0 <= i < j < |fs| ==> fs[i].field != fs[j].field
  }

  /** The upload a `files` dictionary holds under a field. */
  function FileAt(fs: seq<UploadedFile>, field: string): (r: Option<UploadedFile>)
    ensures r.None? <==> forall i :: 0 <= i < |fs| ==> fs[i].field != field
    ensures r.Some? ==> r.value in fs && r.value.field == field
  {
    if fs == [] then None else if fs[0].field == field then Some(fs[0]) else FileAt(fs[1..], field)
  }

  /** `files[key] = f`: an existing field keeps its place and takes the new file, a new field goes last. */
  function PutFile(fs: seq<UploadedFile>, f: UploadedFile): (r: seq<UploadedFile>)
    ensures r != [] && |r| <= |fs| + 1
    ensures forall g :: g in r ==> g in fs || g == f
  {
    if fs == [] then [f]
    else if fs[0].field == f.field then [f] + fs[1..]
    else [fs[0]] + PutFile(fs[1..], f)
  }

  /** After `files[key] = f`, the field holds `f` and every other field what it held. */
  lemma {:induction false} PutFileAt(fs: seq<UploadedFile>, f: UploadedFile, field: string)
    ensures FileAt(PutFile(fs, f), field) == if field == f.field then Some(f) else FileAt(fs, field)
    decreases |fs|
  {
    if fs != [] && fs[0].field != f.field && fs[0].field != field {
      PutFileAt(fs[1..], f, field);
    }
  }

  /** `files[key] = f` never repeats a field. */
  lemma {:induction false} PutFileDistinct(fs: seq<UploadedFile>, f: UploadedFile)
    requires DistinctFields(fs)
    ensures DistinctFields(PutFile(fs, f))
    decreases |fs|
  {
    if fs != [] {
      var rest := fs[1..];
      assert DistinctFields(rest) by {
        forall i, j | 0 <= i < j < |rest| ensures rest[i].field != rest[j].field {
          assert fs[i + 1].field != fs[j + 1].field;
        }
      }
      var r := PutFile(fs, f);
      if fs[0].field == f.field {
        forall i, j | 0 <= i < j < |r| ensures r[i].field != r[j].field {
          assert r[j] == fs[j];
          if i > 0 { assert r[i] == fs[i]; }
        }
      } else {
        var tail := PutFile(rest, f);
        PutFileDistinct(rest, f);
        forall i, j | 0 <= i < j < |r| ensures r[i].field != r[j].field {
          assert r[j] == tail[j - 1];
          if i > 0 {
            assert r[i] == tail[i - 1];
          } else {
            assert tail[j - 1] in tail;
            if tail[j - 1] != f {
              var k :| 0 <= k < |rest| && rest[k] == tail[j - 1];
              assert fs[0].field != fs[k + 1].field;
            }
          }
        }
      }
    }
  }

  /** The file `request.FILES[field]` gives: the last one uploaded under the field. */
  function LastFile(files: seq<UploadedFile>, field: string): (r: Option<UploadedFile>)
    ensures r.None? <==> forall i :: 0 <= i < |files| ==> files[i].field != field
    decreases |files|
  {
    if files == [] then None
    else if files[|files| - 1].field == field then Some(files[|files| - 1])
    else
      var r := LastFile(files[..|files| - 1], field);
      assert forall i :: 0 <= i < |files| - 1 ==> files[..|files| - 1][i] == files[i];
      r
  }

  /** The `files` dictionary built from `request.FILES.items()`, one upload at a time. */
  function FileFields(files: seq<UploadedFile>): (r: seq<UploadedFile>)
    ensures r == [] <==> files == []
    decreases |files|
  {
    if files == [] then []
    else PutFile(FileFields(files[..|files| - 1]), files[|files| - 1])
  }

  /** Several files uploaded under one field reach the upstream call as one: the last. */
  lemma {:induction false} FilesLastPerField(files: seq<UploadedFile>, field: string)
    ensures DistinctFields(FileFields(files))
    ensures FileAt(FileFields(files), field) == LastFile(files, field)
    decreases |files|
  {
    if files != [] {
      var front := files[..|files| - 1];
      var f := files[|files| - 1];
      FilesLastPerField(front, field);
      PutFileDistinct(FileFields(front), f);
      PutFileAt(FileFields(front), f, field);
    }
  }


  /** The arguments of one `requests.request` call to the upstream API. */
  datatype UpstreamCall = UpstreamCall(
    verb: HttpMethod,
    url: string,
    headers: map<string, string>,
    json: Option<Json>,
    data: Option<Json>,
    files: Option<seq<UploadedFile>>,
    params: Option<Json>,
    cookies: map<string, string>,
    timeout: nat)

  /** A response body as `requests` sees it: empty, not JSON (with the decoder's message), or decoded. */
  datatype Body = NoContent | Unparseable(error: string) | Parsed(json: Json)

  /** The outcome of an HTTP call: a `RequestException` (with its text) or a response. */
  datatype Reply =
    | TransportFailure(error: string)
    | Reply(status: int, body: Body, setCookies: map<string, string>)

  datatype SetCookie = SetCookie(
    value: string,
    maxAge: nat,
    expires: Option<string>,
    httpOnly: bool,
    secure: bool,
    sameSite: string,
    domain: Option<string>)

  datatype Response =
    | JsonResponse(status: int, body: Json, cookies: map<string, SetCookie>)

  /** A string value that Python treats as true: present and non-empty. */
  predicate Present(o: Option<string>) { o.Some? && o.value != "" }

  function CookieValue(cookies: map<string, string>, name: string): Option<string>
  {
    if name in cookies then Some(cookies[name]) else None
  }

  /** An HTTP-only token cookie with a lifetime, as every token cookie of the proxy is written. */
  function Issued(value: string, age: nat, debug: bool): SetCookie
  {
    SetCookie(value, age, None, true, !debug, "Strict", None)
  }

  /** The deletion written by `clear_auth_cookies`. */
  function Cleared(debug: bool): SetCookie
  {
    SetCookie("", 0, Some(Epoch), true, !debug, "Strict", None)
  }

  /** `clear_auth_cookies`: both token cookies become empty, expired deletions. */
  function ClearAuthCookies(resp: Response, debug: bool): (r: Response)
    ensures r.status == resp.status && r.body == resp.body
    ensures r.cookies.Keys == resp.cookies.Keys + {"access_token", "refresh_token"}
    ensures r.cookies["access_token"].value == "" && r.cookies["access_token"].maxAge == 0
    ensures r.cookies["refresh_token"].value == "" && r.cookies["refresh_token"].maxAge == 0
    ensures forall k :: k in resp.cookies && k != "access_token" && k != "refresh_token" ==> r.cookies[k] == resp.cookies[k]
  {
    resp.(cookies := resp.cookies["access_token" := Cleared(debug)]["refresh_token" := Cleared(debug)])
  }

  /** The 500 reply built from a `RequestException`. */
  function ServerError(message: string): Response
  {
    JsonResponse(500, JObj([Member("error", JStr("API request failed")), Member("message", JStr(message))]), map[])
  }

  const AuthFailedDetail: string := "Authentication failed. Please log in again."

  /** The 401 reply to a refresh that failed, with both token cookies cleared. */
  function AuthFailed(debug: bool): Response
  {
    ClearAuthCookies(JsonResponse(401, JObj([Member("success", JBool(false)), Member("detail", JStr(AuthFailedDetail))]), map[]), debug)
  }

  // ---------------------------------------------------------------------
  // Per-request token state

  /**
   * The request attributes the proxy sets while it works: whether a refresh
   * was attempted, whether one succeeded, and the rotated pair.
   */
  datatype Snap = Snap(attempted: bool, wasRefreshed: bool, refreshedAccess: Option<string>, refreshedRefresh: Option<string>)

  /** A request the proxy has not touched yet. */
  const Untouched: Snap := Snap(false, false, None, None)

  /** The rotated pair is stored exactly when a refresh succeeded. */
  predicate Consistent(s: Snap)
  {
    (s.wasRefreshed <==> s.refreshedAccess.Some?) && (!s.wasRefreshed ==> s.refreshedRefresh.None?)
  }

  /** `get_tokens_from_request`: the rotated pair once one is stored, else the two cookies. */
  function TokensFromRequest(cookies: map<string, string>, s: Snap): (Option<string>, Option<string>)
  {
    if s.wasRefreshed then (s.refreshedAccess, s.refreshedRefresh)
    else (CookieValue(cookies, "access_token"), CookieValue(cookies, "refresh_token"))
  }

  /** The `(success, access, refresh)` triple of `refresh_access_token`. */
  datatype Refreshed = Refreshed(success: bool, access: Option<string>, refresh: Option<string>)

  const NotRefreshed: Refreshed := Refreshed(false, None, None)

  /**
   * `refresh_access_token` as a function of the request's cookies and token
   * state: the outcome, the new state, and the refresh tokens sent to the
   * refresh endpoint (at most one).
   */
  function Refresh(cookies: map<string, string>, s: Snap, refresher: string -> Reply): (r: (Refreshed, Snap, seq<string>))
    ensures r.1.attempted && |r.2| <= 1
    ensures s.attempted ==> r.1 == s && r.2 == []
    ensures s.attempted ==> r.0 == (if s.wasRefreshed then Refreshed(true, s.refreshedAccess, s.refreshedRefresh) else NotRefreshed)
    ensures !s.attempted ==>
      (r.0.success <==>
        Present(CookieValue(cookies, "refresh_token")) &&
        var reply := refresher(cookies["refresh_token"]);
        reply.Reply? && reply.status == 200 && Present(CookieValue(reply.setCookies, "access_token")))
    ensures !s.attempted && r.0.success ==>
      var reply := refresher(cookies["refresh_token"]);
      r.0 == Refreshed(true, CookieValue(reply.setCookies, "access_token"), CookieValue(reply.setCookies, "refresh_token")) &&
      r.1 == Snap(true, true, r.0.access, r.0.refresh)
    ensures !s.attempted && !r.0.success ==> r.0 == NotRefreshed && r.1 == s.(attempted := true)
    ensures r.2 != [] <==> !s.attempted && Present(CookieValue(cookies, "refresh_token"))
    ensures r.2 != [] ==> r.2 == [cookies["refresh_token"]]
  {
    if s.attempted then
      (if s.wasRefreshed then Refreshed(true, s.refreshedAccess, s.refreshedRefresh) else NotRefreshed, s, [])
    else
      var s1 := s.(attempted := true);
      var token := CookieValue(cookies, "refresh_token");
      if !Present(token) then (NotRefreshed, s1, [])
      else
        var reply := refresher(token.value);
        if reply.Reply? && reply.status == 200 && Present(CookieValue(reply.setCookies, "access_token")) then
          var a := CookieValue(reply.setCookies, "access_token");
          var rt := CookieValue(reply.setCookies, "refresh_token");
          (Refreshed(true, a, rt), Snap(true, true, a, rt), [token.value])
        else (NotRefreshed, s1, [token.value])
  }

  /**
   * A second `refresh_access_token` in the same request makes no call and
   * repeats the outcome of the first.
   */
  lemma RefreshRepeats(cookies: map<string, string>, refresher: string -> Reply)
    ensures var (first, s1, _) := Refresh(cookies, Untouched, refresher);
            Refresh(cookies, s1, refresher) == (first, s1, [])
  {
  }

  /**
   * The tokens a request sends upstream: its own cookies until a refresh
   * succeeds, the rotated pair from then on, and the cookies again after a
   * refresh that failed.
   */
  lemma TokensAfterRefresh(cookies: map<string, string>, refresher: string -> Reply)
    ensures TokensFromRequest(cookies, Untouched) == (CookieValue(cookies, "access_token"), CookieValue(cookies, "refresh_token"))
    ensures var (res, s1, _) := Refresh(cookies, Untouched, refresher);
      TokensFromRequest(cookies, s1) ==
        if res.success then (res.access, res.refresh)
        else (CookieValue(cookies, "access_token"), CookieValue(cookies, "refresh_token"))
  {
  }

  class RequestState {
    /** `request.COOKIES`. */
    const cookies: map<string, string>
    /** `_token_refresh_attempted`. */
    var attempted: bool
    /** `_token_was_refreshed`. */
    var wasRefreshed: bool
    /** `_refreshed_access_token`. */
    var refreshedAccess: Option<string>
    /** `_refreshed_refresh_token`. */
    var refreshedRefresh: Option<string>

    ghost predicate Valid()
      reads this
    {
      Consistent(Snapshot())
    }

    function Snapshot(): Snap
      reads this
    {
      Snap(attempted, wasRefreshed, refreshedAccess, refreshedRefresh)
    }

    constructor (cookies: map<string, string>)
      ensures Valid() && this.cookies == cookies && Snapshot() == Untouched
    {
      this.cookies := cookies;
      attempted := false;
      wasRefreshed := false;
      refreshedAccess := None;
      refreshedRefresh := None;
    }

    /** `set_refreshed_tokens`: store the rotated pair and mark the request as refreshed. */
    method SetRefreshedTokens(access: string, refresh: Option<string>)
      modifies this
      ensures Valid()
      ensures Snapshot() == old(Snapshot()).(wasRefreshed := true, refreshedAccess := Some(access), refreshedRefresh := refresh)
    {
      refreshedAccess := Some(access);
      refreshedRefresh := refresh;
      wasRefreshed := true;
    }

    /** `refresh_access_token`, with the refresh tokens it sent. */
    method RefreshAccessToken(refresher: string -> Reply) returns (result: Refreshed, sent: seq<string>)
      requires Valid()
      modifies this
      ensures Valid()
      ensures (result, Snapshot(), sent) == Refresh(cookies, old(Snapshot()), refresher)
    {
      if attempted {
        if wasRefreshed {
          return Refreshed(true, refreshedAccess, refreshedRefresh), [];
        }
        return NotRefreshed, [];
      }
      attempted := true;
      var token := CookieValue(cookies, "refresh_token");
      if !Present(token) {
        return NotRefreshed, [];
      }
      sent := [token.value];
      var reply := refresher(token.value);
      if reply.Reply? && reply.status == 200 {
        var newAccess := CookieValue(reply.setCookies, "access_token");
        var newRefresh := CookieValue(reply.setCookies, "refresh_token");
        if Present(newAccess) {
          SetRefreshedTokens(newAccess.value, newRefresh);
          return Refreshed(true, newAccess, newRefresh), sent;
        }
      }
      result := NotRefreshed;
    }
  }

  // ---------------------------------------------------------------------
  // forward_request

  /** Headers of every upstream call: JSON Accept, and a JSON Content-Type unless the request is multipart. */
  function UpstreamHeaders(contentType: string): (h: map<string, string>)
    ensures "Accept" in h && h["Accept"] == "application/json"
    ensures "Content-Type" in h <==> !Contains(contentType, "multipart/form-data")
    ensures "Content-Type" in h ==> h["Content-Type"] == "application/json"
  {
    var h := map["Accept" := "application/json"];
    if Contains(contentType, "multipart/form-data") then h else h["Content-Type" := "application/json"]
  }

  /** A cookie is forwarded only for a token that is present and non-empty. */
  function OutboundCookies(tokens: (Option<string>, Option<string>)): (c: map<string, string>)
    ensures "access_token" in c <==> Present(tokens.0)
    ensures "refresh_token" in c <==> Present(tokens.1)
    ensures "access_token" in c ==> c["access_token"] == tokens.0.value
    ensures "refresh_token" in c ==> c["refresh_token"] == tokens.1.value
    ensures c.Keys <= {"access_token", "refresh_token"}
  {
    var c := if Present(tokens.0) then map["access_token" := tokens.0.value] else map[];
    if Present(tokens.1) then c["refresh_token" := tokens.1.value] else c
  }

  /** The `(json_data, data, files)` prepared from the request body. */
  datatype Prepared = Prepared(json: Option<Json>, data: Option<Json>, files: Option<seq<UploadedFile>>)

  function PrepareBody(req: Inbound): Prepared
  {
    if req.verb !in {POST, PUT, PATCH} then Prepared(None, None, None)
    else if Contains(req.contentType, "multipart/form-data") then
      Prepared(None, Some(EnsureUtcParams(FormJson(req.form))), if req.files == [] then None else Some(FileFields(req.files)))
    else if req.contentType == "application/json" then
      Prepared(if req.body.Some? then Some(EnsureUtcParams(req.body.value)) else None, None, None)
    else Prepared(None, Some(EnsureUtcParams(FormJson(req.form))), None)
  }

  predicate TruthyOpt(o: Option<Json>) { o.Some? && Truthy(o.value) }

  /** The first upstream call of `forward_request`. */
  function FirstCall(base: string, path: string, cookies: map<string, string>, req: Inbound, s: Snap): UpstreamCall
  {
    var p := PrepareBody(req);
    UpstreamCall(
      req.verb,
      ApiUrl(base, path),
      UpstreamHeaders(req.contentType),
      if TruthyOpt(p.json) then p.json else None,
      if TruthyOpt(p.data) && !TruthyOpt(p.json) then p.data else None,
      p.files,
      if req.query == [] then None else Some(EnsureUtcParams(FormJson(req.query))),
      OutboundCookies(TokensFromRequest(cookies, s)),
      UpstreamTimeout)
  }

  /** The body handed to `JsonResponse` for a reply that parsed: `{}` for an empty one. */
  function RelayedJson(b: Body): Json
  {
    if b.Parsed? then b.json else JObj([])
  }

  /** The `if` at the head of the refresh branch: the detail of a 401 says the access token expired, without raising. */
  predicate SaysExpired(b: Body)
  {
    b.Parsed? && b.json.JObj? &&
    var detail := Lookup(b.json.fields, "detail");
    match detail
    case None => false
    case Some(JStr(d)) => Contains(d, ExpiredPhraseCapitalised) || Contains(ToLower(d), ExpiredPhrase)
    case Some(JArr(items)) => JStr(ExpiredPhraseCapitalised) in items
    case Some(JObj(fs)) => Lookup(fs, ExpiredPhraseCapitalised).Some?
    case Some(_) => false
  }

  /** A non-empty string stored under `key`. */
  function StringField(fields: seq<Member>, key: string): Option<string>
  {
    match Lookup(fields, key)
    case Some(JStr(v)) => if v == "" then None else Some(v)
    case _ => None
  }

  /** The tokens of a login reply's `data` object, when `data.access_token` is a non-empty string. */
  function LoginTokens(b: Body): (Option<string>, Option<string>)
  {
    var data := if b.Parsed? && b.json.JObj? then Lookup(b.json.fields, "data") else None;
    if data.Some? && data.value.JObj? && StringField(data.value.fields, "access_token").Some? then
      (StringField(data.value.fields, "access_token"), StringField(data.value.fields, "refresh_token"))
    else (None, None)
  }

  /** The normal relay of a reply (lines 335-388): a decoding failure becomes a 500 through the `RequestException` handler. */
  function Relay(status: int, body: Body, path: string, s: Snap, debug: bool): (resp: Response)
    ensures body.Unparseable? ==> resp == ServerError(body.error)
    ensures !body.Unparseable? ==> resp.status == status && resp.body == RelayedJson(body)
    ensures status != 200 ==> resp.cookies == map[]
  {
    if body.Unparseable? then ServerError(body.error)
    else
      var c0: map<string, SetCookie> :=
        if s.wasRefreshed && status == 200 && s.refreshedAccess.Some? then
          var c := map["access_token" := Issued(s.refreshedAccess.value, RotatedAccessAge, debug)];
          if Present(s.refreshedRefresh) then c["refresh_token" := Issued(s.refreshedRefresh.value, RotatedRefreshAge, debug)] else c
        else map[];
      var login := LoginTokens(body);
      var c1 :=
        if path == LoginPath && status == 200 && Present(login.0) then
          var c := c0["access_token" := Issued(login.0.value, LoginAccessAge, debug)];
          if Present(login.1) then c["refresh_token" := Issued(login.1.value, LoginRefreshAge, debug)] else c
        else c0;
      JsonResponse(status, RelayedJson(body), c1)
  }

  /** The response to a retried call (lines 297-323): rotated cookies are written whatever its status. */
  function RetriedResponse(status: int, body: Body, rotated: Refreshed, debug: bool): Response
    requires rotated.access.Some?
  {
    var c := map["access_token" := Issued(rotated.access.value, RotatedAccessAge, debug)];
    JsonResponse(status, RelayedJson(body),
      if Present(rotated.refresh) then c["refresh_token" := Issued(rotated.refresh.value, RotatedRefreshAge, debug)] else c)
  }

  /** The outbound cookies of the retry: the rotated access token, and the rotated refresh token when present. */
  function RotatedCookies(c: map<string, string>, rotated: Refreshed): map<string, string>
    requires rotated.access.Some?
  {
    var c1 := c["access_token" := rotated.access.value];
    if Present(rotated.refresh) then c1["refresh_token" := rotated.refresh.value] else c1
  }

  /** What one call of `forward_request` does: the response, the upstream calls made, the refresh tokens sent, the final token state. */
  datatype Outcome = Outcome(response: Response, calls: seq<UpstreamCall>, refreshes: seq<string>, state: Snap)

  /**
   * `forward_request` (with `retry_count` 0, as every handler calls it).
   * It makes one or two upstream calls and at most one refresh call; a
   * second upstream call happens only after a 401 whose detail says the
   * access token expired and a successful refresh.
   */
  function Forward(base: string, debug: bool, path: string, cookies: map<string, string>, req: Inbound, s: Snap,
                   upstream: (UpstreamCall, nat) -> Reply, refresher: string -> Reply): (o: Outcome)
    ensures 1 <= |o.calls| <= 2 && |o.refreshes| <= 1
    ensures o.calls[0] == FirstCall(base, path, cookies, req, s)
    ensures |o.calls| == 2 ==>
      var r := upstream(o.calls[0], 0);
      r.Reply? && r.status == 401 && SaysExpired(r.body) &&
      Refresh(cookies, s, refresher).0.success && Present(Refresh(cookies, s, refresher).0.access)
    ensures |o.refreshes| == 1 ==>
      var r := upstream(o.calls[0], 0);
      r.Reply? && r.status == 401 && SaysExpired(r.body) && !s.attempted && Present(CookieValue(cookies, "refresh_token"))
  {
    var call := FirstCall(base, path, cookies, req, s);
    var r := upstream(call, 0);
    if r.TransportFailure? then Outcome(ServerError(r.error), [call], [], s)
    else if r.status == 401 && SaysExpired(r.body) then
      var (rotated, s1, sent) := Refresh(cookies, s, refresher);
      AfterRefresh(call, r.status, r.body, rotated, s1, sent, path, debug, upstream)
    else Outcome(Relay(r.status, r.body, path, s, debug), [call], [], s)
  }

  /**
   * Lines 283-323: after an expired-token reply (`status`, `body`) to `call`
   * and a refresh attempt, the retry with the rotated pair, or the 401 of a
   * failed refresh.
   */
  function AfterRefresh(call: UpstreamCall, status: int, body: Body, rotated: Refreshed, s1: Snap, sent: seq<string>,
                        path: string, debug: bool, upstream: (UpstreamCall, nat) -> Reply): (o: Outcome)
    ensures 1 <= |o.calls| <= 2 && o.calls[0] == call && o.refreshes == sent && o.state == s1
    ensures |o.calls| == 2 <==> rotated.success && Present(rotated.access)
  {
    if rotated.success && Present(rotated.access) then
      var retry := call.(cookies := RotatedCookies(call.cookies, rotated));
      var r2 := upstream(retry, 1);
      var resp :=
        if r2.TransportFailure? then Relay(status, body, path, s1, debug)
        else if r2.body.Unparseable? then Relay(r2.status, r2.body, path, s1, debug)
        else RetriedResponse(r2.status, r2.body, rotated, debug);
      Outcome(resp, [call, retry], sent, s1)
    else Outcome(AuthFailed(debug), [call], sent, s1)
  }

  /** The first upstream call, assembled step by step as lines 198-265 do. */
  method PrepareCall(st: RequestState, base: string, path: string, req: Inbound) returns (call: UpstreamCall)
    ensures call == FirstCall(base, path, st.cookies, req, st.Snapshot())
  {
    var headers := map["Accept" := "application/json"];
    if !Contains(req.contentType, "multipart/form-data") {
      headers := headers["Content-Type" := "application/json"];
    }
    var (access, refresh) := TokensFromRequest(st.cookies, st.Snapshot());
    var cookies: map<string, string> := map[];
    if Present(access) {
      cookies := cookies["access_token" := access.value];
    }
    if Present(refresh) {
      cookies := cookies["refresh_token" := refresh.value];
    }
    var params: Option<Json> := None;
    if req.query != [] {
      params := Some(EnsureUtcParams(FormJson(req.query)));
    }
    var jsonData, data, files := PrepareBodyParts(req);
    call := UpstreamCall(req.verb, ApiUrl(base, path), headers,
      if TruthyOpt(jsonData) then jsonData else None,
      if TruthyOpt(data) && !TruthyOpt(jsonData) then data else None,
      files, params, cookies, UpstreamTimeout);
  }

  /** The body of the first call, chosen by method and content type as lines 225-251 do. */
  method PrepareBodyParts(req: Inbound) returns (jsonData: Option<Json>, data: Option<Json>, files: Option<seq<UploadedFile>>)
    ensures Prepared(jsonData, data, files) == PrepareBody(req)
  {
    jsonData, data, files := None, None, None;
    if req.verb in {POST, PUT, PATCH} {
      if Contains(req.contentType, "multipart/form-data") {
        data := Some(EnsureUtcParams(FormJson(req.form)));
        if req.files != [] {
          files := Some(FileFields(req.files));
        }
      } else if req.contentType == "application/json" {
        if req.body.Some? {
          jsonData := Some(EnsureUtcParams(req.body.value));
        }
      } else {
        data := Some(EnsureUtcParams(FormJson(req.form)));
      }
    }
  }

  /** The normal relay of lines 335-388, writing the cookie jar step by step. */
  method RelayReply(st: RequestState, status: int, body: Body, path: string, debug: bool) returns (resp: Response)
    ensures resp == Relay(status, body, path, st.Snapshot(), debug)
  {
    if body.Unparseable? {
      return ServerError(body.error);
    }
    var jar: map<string, SetCookie> := map[];
    if st.wasRefreshed && status == 200 && st.refreshedAccess.Some? {
      jar := jar["access_token" := Issued(st.refreshedAccess.value, RotatedAccessAge, debug)];
      if Present(st.refreshedRefresh) {
        jar := jar["refresh_token" := Issued(st.refreshedRefresh.value, RotatedRefreshAge, debug)];
      }
    }
    if path == LoginPath && status == 200 {
      var (loginAccess, loginRefresh) := LoginTokens(body);
      if Present(loginAccess) {
        jar := jar["access_token" := Issued(loginAccess.value, LoginAccessAge, debug)];
        if Present(loginRefresh) {
          jar := jar["refresh_token" := Issued(loginRefresh.value, LoginRefreshAge, debug)];
        }
      }
    }
    resp := JsonResponse(status, RelayedJson(body), jar);
  }

  /** The retry of lines 277-331 once the refresh has been attempted; `st` holds the state after it. */
  method RetryAfterRefresh(st: RequestState, call: UpstreamCall, status: int, body: Body, rotated: Refreshed, sent: seq<string>,
                           path: string, debug: bool, upstream: (UpstreamCall, nat) -> Reply)
    returns (resp: Response, calls: seq<UpstreamCall>)
    ensures Outcome(resp, calls, sent, st.Snapshot()) == AfterRefresh(call, status, body, rotated, st.Snapshot(), sent, path, debug, upstream)
  {
    calls := [call];
    if !(rotated.success && Present(rotated.access)) {
      return AuthFailed(debug), calls;
    }
    var cookies := call.cookies["access_token" := rotated.access.value];
    if Present(rotated.refresh) {
      cookies := cookies["refresh_token" := rotated.refresh.value];
    }
    var retry := call.(cookies := cookies);
    calls := calls + [retry];
    var reply2 := upstream(retry, 1);
    var status', body' := status, body;
    if reply2.Reply? {
      if !reply2.body.Unparseable? {
        var jar := map["access_token" := Issued(rotated.access.value, RotatedAccessAge, debug)];
        if Present(rotated.refresh) {
          jar := jar["refresh_token" := Issued(rotated.refresh.value, RotatedRefreshAge, debug)];
        }
        return JsonResponse(reply2.status, RelayedJson(reply2.body), jar), calls;
      }
      // decoding the retried reply raised: the normal relay below decodes it again
      status', body' := reply2.status, reply2.body;
    }
    // a failed retry is swallowed and the first reply is relayed
    resp := RelayReply(st, status', body', path, debug);
  }

  /** `APIProxyView.forward_request`, step by step over the request's token state. */
  method ForwardRequest(st: RequestState, base: string, debug: bool, path: string, req: Inbound,
                        upstream: (UpstreamCall, nat) -> Reply, refresher: string -> Reply)
    returns (resp: Response, calls: seq<UpstreamCall>, refreshes: seq<string>)
    requires st.Valid()
    modifies st
    ensures st.Valid()
    ensures Outcome(resp, calls, refreshes, st.Snapshot()) == Forward(base, debug, path, st.cookies, req, old(st.Snapshot()), upstream, refresher)
  {
    var call := PrepareCall(st, base, path, req);
    calls := [call];
    refreshes := [];
    var reply := upstream(call, 0);
    if reply.TransportFailure? {
      return ServerError(reply.error), calls, refreshes;
    }
    var status, body := reply.status, reply.body;
    if status == 401 && SaysExpired(body) {
      var rotated;
      rotated, refreshes := st.RefreshAccessToken(refresher);
      resp, calls := RetryAfterRefresh(st, call, status, body, rotated, refreshes, path, debug, upstream);
      return;
    }
    resp := RelayReply(st, status, body, path, debug);
  }

  // ---------------------------------------------------------------------
  // Properties of forward_request

  /** Content-Type: application/json is sent exactly when the inbound content type is not multipart. */
  lemma ContentTypeRule(base: string, path: string, cookies: map<string, string>, req: Inbound, s: Snap)
    ensures var call := FirstCall(base, path, cookies, req, s);
      ("Content-Type" in call.headers <==> !Contains(req.contentType, "multipart/form-data"))
  {
  }

  /** A JSON body that does not decode, and one that decodes to an empty or falsy value, are sent as no JSON and no form data. */
  lemma JsonBodyRule(base: string, path: string, cookies: map<string, string>, req: Inbound, s: Snap)
    requires req.verb in {POST, PUT, PATCH} && req.contentType == "application/json"
    ensures var call := FirstCall(base, path, cookies, req, s);
      call.data.None? && call.files.None? &&
      (call.json.Some? <==> req.body.Some? && Truthy(req.body.value)) &&
      (call.json.Some? ==> call.json == req.body)
  {
    NotContainsLonger(req.contentType, "multipart/form-data");
    if req.body.Some? { EnsureUtcParamsIdentity(req.body.value); }
  }

  /** The first call carries the rotated pair once one is stored, and the request's cookies otherwise. */
  lemma FirstCallTokens(base: string, path: string, cookies: map<string, string>, req: Inbound, s: Snap)
    requires Consistent(s)
    ensures var c := FirstCall(base, path, cookies, req, s).cookies;
      (s.wasRefreshed && Present(s.refreshedAccess) ==> c["access_token"] == s.refreshedAccess.value) &&
      (!s.wasRefreshed && Present(CookieValue(cookies, "access_token")) ==> c["access_token"] == cookies["access_token"]) &&
      (!s.wasRefreshed && Present(CookieValue(cookies, "refresh_token")) ==> c["refresh_token"] == cookies["refresh_token"])
  {
  }

  /** A reply that is not a 401 with an expired-token detail is relayed after one call, with no refresh. */
  lemma NoRefreshWithoutExpiry(base: string, debug: bool, path: string, cookies: map<string, string>, req: Inbound, s: Snap,
                               upstream: (UpstreamCall, nat) -> Reply, refresher: string -> Reply)
    requires var r := upstream(FirstCall(base, path, cookies, req, s), 0);
      r.Reply? && !(r.status == 401 && SaysExpired(r.body))
    ensures var o := Forward(base, debug, path, cookies, req, s, upstream, refresher);
      var r := upstream(FirstCall(base, path, cookies, req, s), 0);
      |o.calls| == 1 && o.refreshes == [] && o.state == s &&
      o.response == Relay(r.status, r.body, path, s, debug)
  {
  }

  /** A transport failure of the first call becomes a 500 "API request failed" with no refresh and no retry. */
  lemma TransportFailureIs500(base: string, debug: bool, path: string, cookies: map<string, string>, req: Inbound, s: Snap,
                              upstream: (UpstreamCall, nat) -> Reply, refresher: string -> Reply)
    requires upstream(FirstCall(base, path, cookies, req, s), 0).TransportFailure?
    ensures var o := Forward(base, debug, path, cookies, req, s, upstream, refresher);
      o.response.status == 500 && o.response.cookies == map[] && |o.calls| == 1 && o.refreshes == [] &&
      o.response.body == JObj([Member("error", JStr("API request failed")),
                               Member("message", JStr(upstream(FirstCall(base, path, cookies, req, s), 0).error))])
  {
  }

  /** After an expired-token 401 on an untouched request, a failed refresh answers 401 with both token cookies cleared. */
  lemma FailedRefreshClearsCookies(base: string, debug: bool, path: string, cookies: map<string, string>, req: Inbound,
                                   upstream: (UpstreamCall, nat) -> Reply, refresher: string -> Reply)
    requires var r := upstream(FirstCall(base, path, cookies, req, Untouched), 0);
      r.Reply? && r.status == 401 && SaysExpired(r.body)
    requires !Refresh(cookies, Untouched, refresher).0.success
    ensures var o := Forward(base, debug, path, cookies, req, Untouched, upstream, refresher);
      o.response.status == 401 && |o.calls| == 1 &&
      o.response.body == JObj([Member("success", JBool(false)), Member("detail", JStr(AuthFailedDetail))]) &&
      o.response.cookies.Keys == {"access_token", "refresh_token"} &&
      o.response.cookies["access_token"] == Cleared(debug) && o.response.cookies["refresh_token"] == Cleared(debug) &&
      o.state.attempted && !o.state.wasRefreshed
  {
  }

  /**
   * After an expired-token 401 and a successful refresh, the call is retried
   * once with the rotated tokens; a retried reply that decodes is returned
   * with the rotated access cookie (6 hours) and, when one was issued, the
   * rotated refresh cookie (1 day).
   */
  lemma RetryWritesRotatedCookies(base: string, debug: bool, path: string, cookies: map<string, string>, req: Inbound,
                                  upstream: (UpstreamCall, nat) -> Reply, refresher: string -> Reply)
    requires var r := upstream(FirstCall(base, path, cookies, req, Untouched), 0);
      r.Reply? && r.status == 401 && SaysExpired(r.body)
    requires Refresh(cookies, Untouched, refresher).0.success
    ensures var o := Forward(base, debug, path, cookies, req, Untouched, upstream, refresher);
      var rotated := Refresh(cookies, Untouched, refresher).0;
      var r2 := upstream(o.calls[1], 1);
      |o.calls| == 2 && |o.refreshes| == 1 &&
      o.calls[1].cookies["access_token"] == rotated.access.value &&
      (Present(rotated.refresh) ==> o.calls[1].cookies["refresh_token"] == rotated.refresh.value) &&
      (r2.Reply? && !r2.body.Unparseable? ==>
        o.response.status == r2.status &&
        o.response.cookies["access_token"] == Issued(rotated.access.value, 21600, debug) &&
        ("refresh_token" in o.response.cookies <==> Present(rotated.refresh)) &&
        (Present(rotated.refresh) ==> o.response.cookies["refresh_token"] == Issued(rotated.refresh.value, 86400, debug))) &&
      (r2.TransportFailure? ==> o.response.status == 401 && o.response.cookies == map[])
  {
  }

  /** A successful login relays the reply and issues a 7-day access cookie and, when given, a 30-day refresh cookie. */
  lemma LoginIssuesCookies(base: string, debug: bool, cookies: map<string, string>, req: Inbound,
                           upstream: (UpstreamCall, nat) -> Reply, refresher: string -> Reply)
    requires var r := upstream(FirstCall(base, LoginPath, cookies, req, Untouched), 0);
      r.Reply? && r.status == 200 && Present(LoginTokens(r.body).0)
    ensures var o := Forward(base, debug, LoginPath, cookies, req, Untouched, upstream, refresher);
      var login := LoginTokens(upstream(FirstCall(base, LoginPath, cookies, req, Untouched), 0).body);
      o.response.status == 200 &&
      o.response.cookies["access_token"] == Issued(login.0.value, 604800, debug) &&
      ("refresh_token" in o.response.cookies <==> Present(login.1)) &&
      (Present(login.1) ==> o.response.cookies["refresh_token"] == Issued(login.1.value, 2592000, debug))
  {
  }

  /** A request whose tokens were rotated earlier stamps the rotated cookies on a 200 reply, and only on a 200. */
  lemma RotatedStampOnlyOn200(status: int, body: Body, path: string, s: Snap, debug: bool)
    requires Consistent(s) && s.wasRefreshed && !body.Unparseable? && path != LoginPath
    ensures var resp := Relay(status, body, path, s, debug);
      (status == 200 ==> resp.cookies["access_token"] == Issued(s.refreshedAccess.value, 21600, debug)) &&
      (status != 200 ==> resp.cookies == map[])
  {
  }

  // ---------------------------------------------------------------------
  // logout_proxy

  /** The reply of `logout_proxy`, with its Set-Cookie headers in order and the upstream logout call made, if any. */
  datatype LogoutReply =
    | NotAllowed                   // 405 from `require_http_methods(["GET", "POST", "PUT"])`
    | LoginRedirect
    | LoggedOut(status: int, body: Json, setCookies: seq<(string, SetCookie)>, logoutCall: Option<(string, string)>)

  /** A cookie deletion as `logout_proxy` writes it. */
  function LogoutDeletion(domain: Option<string>): SetCookie
  {
    SetCookie("", 0, Some(Epoch), true, true, "none", domain)
  }

  /** Django's `set_cookie`: the jar holds one entry per name, so a second cookie of that name replaces the first in place. */
  function SetCookieByName(jar: seq<(string, SetCookie)>, name: string, c: SetCookie): (r: seq<(string, SetCookie)>)
    ensures (name, c) in r
    ensures forall p :: p in r && p.0 != name ==> p in jar
    decreases |jar|
  {
    if |jar| == 0 then [(name, c)]
    else if jar[0].0 == name then [(name, c)] + jar[1..]
    else [jar[0]] + SetCookieByName(jar[1..], name, c)
  }

  function LogoutCall(base: string, cookies: map<string, string>, sessionAccess: Option<string>): Option<(string, string)>
  {
    var access := if Present(CookieValue(cookies, "access_token")) then CookieValue(cookies, "access_token") else sessionAccess;
    if Present(access) then Some((base + "/api/v1/users/auth/logout", access.value)) else None
  }

  const LoggedOutBody: Json := JObj([Member("success", JBool(true)), Member("message", JStr("Logged out successfully"))])

  /**
   * `logout_proxy` as written: the host-only deletions are written, then,
   * for the default API domain, deletions for ".salona.me" under the same
   * names, which replace them in Django's cookie jar.
   */
  function LogoutAsWritten(verb: HttpMethod, base: string, cookies: map<string, string>, sessionAccess: Option<string>): (r: LogoutReply)
    ensures verb !in {GET, POST, PUT} <==> r == NotAllowed
    ensures verb == GET <==> r == LoginRedirect
    ensures verb in {POST, PUT} <==> r.LoggedOut?
  {
    if verb !in {GET, POST, PUT} then NotAllowed
    else if verb == GET then LoginRedirect
    else
      var jar := SetCookieByName(SetCookieByName([], "access_token", LogoutDeletion(None)), "refresh_token", LogoutDeletion(None));
      var jar' :=
        if Contains(base, "api.salona.me") then
          SetCookieByName(SetCookieByName(jar, "access_token", LogoutDeletion(Some(".salona.me"))), "refresh_token", LogoutDeletion(Some(".salona.me")))
        else jar;
      LoggedOut(200, LoggedOutBody, jar', LogoutCall(base, cookies, sessionAccess))
  }

  /**
   * With the default API base, the logout written as above sends no
   * host-only deletion at all: both headers carry Domain=.salona.me, so the
   * host-only token cookies that `forward_request` writes survive a logout.
   */
  lemma LogoutAsWrittenLosesHostOnlyDeletion(cookies: map<string, string>, sessionAccess: Option<string>)
    ensures var r := LogoutAsWritten(POST, DefaultApiBase, cookies, sessionAccess);
      r.LoggedOut? &&
      r.setCookies == [("access_token", LogoutDeletion(Some(".salona.me"))), ("refresh_token", LogoutDeletion(Some(".salona.me")))] &&
      ("access_token", LogoutDeletion(None)) !in r.setCookies
  {
    DefaultBaseIsApiDomain();
    var none, parent := LogoutDeletion(None), LogoutDeletion(Some(".salona.me"));
    assert "access_token" != "refresh_token";
    assert SetCookieByName([], "access_token", none) == [("access_token", none)];
    SetCookieAppends(("access_token", none), "refresh_token", none);
    SetCookieReplacesInPair(("access_token", none), ("refresh_token", none), parent);
    SetCookieReplacesInPair(("access_token", parent), ("refresh_token", none), parent);
    assert none != parent;
  }

  lemma DefaultBaseIsApiDomain()
    ensures Contains(DefaultApiBase, "api.salona.me")
  {
    assert DefaultApiBase == "https://" + "api.salona.me";
    ContainsAt(DefaultApiBase, "api.salona.me", 8);
  }

  /** Setting a second cookie name appends it. */
  lemma SetCookieAppends(a: (string, SetCookie), name: string, c: SetCookie)
    requires a.0 != name
    ensures SetCookieByName([a], name, c) == [a, (name, c)]
  {
    assert [a][1..] == [];
  }

  /** Setting either cookie of a two-cookie jar replaces that entry in place. */
  lemma SetCookieReplacesInPair(a: (string, SetCookie), b: (string, SetCookie), c: SetCookie)
    requires a.0 != b.0
    ensures SetCookieByName([a, b], a.0, c) == [(a.0, c), b]
    ensures SetCookieByName([a, b], b.0, c) == [a, (b.0, c)]
  {
    assert [a, b][1..] == [b];
    assert SetCookieByName([b], b.0, c) == [(b.0, c)] + [b][1..];
  }


  /**
   * `logout_proxy` as intended: every deletion is its own Set-Cookie header,
   * so the host-only deletions are always sent, and the ".salona.me" ones as
   * well for the API's own domain. An access token from the cookie, else from
   * the session, is sent to the upstream logout first; its failure is ignored.
   */
  function Logout(verb: HttpMethod, base: string, cookies: map<string, string>, sessionAccess: Option<string>): (r: LogoutReply)
    ensures verb !in {GET, POST, PUT} <==> r == NotAllowed
    ensures verb == GET <==> r == LoginRedirect
    ensures verb in {POST, PUT} <==> r.LoggedOut?
    ensures r.LoggedOut? ==>
      r.status == 200 && r.body == LoggedOutBody &&
      ("access_token", LogoutDeletion(None)) in r.setCookies &&
      ("refresh_token", LogoutDeletion(None)) in r.setCookies &&
      (Contains(base, "api.salona.me") <==> ("access_token", LogoutDeletion(Some(".salona.me"))) in r.setCookies) &&
      (Contains(base, "api.salona.me") <==> ("refresh_token", LogoutDeletion(Some(".salona.me"))) in r.setCookies) &&
      (forall p :: p in r.setCookies ==> p.1.value == "" && p.1.maxAge == 0) &&
      (r.logoutCall.Some? <==> Present(CookieValue(cookies, "access_token")) || Present(sessionAccess))
  {
    if verb !in {GET, POST, PUT} then NotAllowed
    else if verb == GET then LoginRedirect
    else
      var hostOnly := [("access_token", LogoutDeletion(None)), ("refresh_token", LogoutDeletion(None))];
      var parent := [("access_token", LogoutDeletion(Some(".salona.me"))), ("refresh_token", LogoutDeletion(Some(".salona.me")))];
      LoggedOut(200, LoggedOutBody, hostOnly + (if Contains(base, "api.salona.me") then parent else []), LogoutCall(base, cookies, sessionAccess))
  }
}
