// The request objects of libs/utils/http/AsyncHttpConnPoolUtil.ts and the
// part of execute that prepares a request: HttpEntityEnclosingRequestBase
// accumulates a URI, a body and multi-valued headers; its three subclasses
// name the HTTP method; execute copies the caller's headers in and builds
// the request configuration that is handed to the HTTP client.  The request
// itself is not made: the configuration is the result.

module ConnPool {
  import opened Wrappers
  import opened OrderedMaps
  import Strs

  /** A request header. */
  datatype Header = Header(name: string, value: string)

  /** The concrete request classes. */
  datatype RequestKind = GetWithEntity | PutRequest | PostRequest

  /** getMethod of each class. */
  function MethodName(kind: RequestKind): string
  {
    match kind
    case GetWithEntity => "GET"
    case PutRequest => "PUT"
    case PostRequest => PostMethodName
  }

  /** HttpPost.METHOD_NAME. */
  const PostMethodName := "POST"

  /** The header that getAllHeaders does not combine. */
  const SetCookie := "Set-Cookie"

  /** The configuration handed to the HTTP client. */
  datatype RequestConfig = RequestConfig(
    httpMethod: string,
    url: string,
    data: Option<string>,
    headers: OMap<string>,
    timeout: int)

  /** A request body is set only when it is truthy: present and not empty. */
  predicate Truthy(body: Option<string>)
  {
    body.Some? && body.value != ""
  }

  // ---------------------------------------------------------------------------
  // The header table

  /** addHeader on a table: the value goes to the end of the header's list,
      which is created when the header is new. */
  function AddHeaderTo(h: OMap<seq<string>>, hd: Header): OMap<seq<string>>
  {
    h.Put(hd.name, h.Get(hd.name).GetOr([]) + [hd.value])
  }

  /** Several addHeader calls in order. */
  function AddAll(h: OMap<seq<string>>, hs: seq<Header>): OMap<seq<string>>
    decreases |hs|
  {
    if |hs| == 0 then h else AddHeaderTo(AddAll(h, hs[..|hs| - 1]), hs[|hs| - 1])
  }

  /** getAllHeaders on a table: every header but Set-Cookie, in key order,
      with its values joined by ", ". */
  function Combined(keys: seq<string>, vals: map<string, seq<string>>): OMap<string>
    decreases |keys|
  {
    if |keys| == 0 then Empty()
    else
      var r := Combined(keys[..|keys| - 1], vals);
      var k := keys[|keys| - 1];
      if k == SetCookie || k !in vals then r else r.Put(k, Strs.Join(vals[k], ", "))
  }

  /** `keys` without Set-Cookie, in order. */
  function WithoutCookie(keys: seq<string>): seq<string>
    decreases |keys|
  {
    if |keys| == 0 then []
    else WithoutCookie(keys[..|keys| - 1]) + (if keys[|keys| - 1] == SetCookie then [] else [keys[|keys| - 1]])
  }

  /** addHeader keeps the table valid, appends to the named header only, and
      puts a new header last. */
  lemma AddHeaderSpec(h: OMap<seq<string>>, hd: Header)
    requires h.Valid()
    ensures AddHeaderTo(h, hd).Valid()
    ensures AddHeaderTo(h, hd).Get(hd.name) == Some(h.Get(hd.name).GetOr([]) + [hd.value])
    ensures forall x :: x != hd.name ==> AddHeaderTo(h, hd).Get(x) == h.Get(x)
    ensures hd.name in h.keys ==> AddHeaderTo(h, hd).keys == h.keys
    ensures hd.name !in h.keys ==> AddHeaderTo(h, hd).keys == h.keys + [hd.name]
  {
    PutSpec(h, hd.name, h.Get(hd.name).GetOr([]) + [hd.value]);
  }

  /** The values of a header after several additions are its earlier values
      followed by the added ones of that name, in order. */
  lemma {:induction false} AddAllValues(h: OMap<seq<string>>, hs: seq<Header>, name: string)
    requires h.Valid()
    ensures AddAll(h, hs).Valid()
    ensures |ValuesOf(hs, name)| > 0 ==> AddAll(h, hs).Get(name) == Some(h.Get(name).GetOr([]) + ValuesOf(hs, name))
    ensures |ValuesOf(hs, name)| == 0 ==> AddAll(h, hs).Get(name) == h.Get(name)
    decreases |hs|
  {
    if |hs| > 0 {
      var init := hs[..|hs| - 1];
      var last := hs[|hs| - 1];
      AddAllValues(h, init, name);
      AddHeaderSpec(AddAll(h, init), last);
      assert AddAll(h, hs) == AddHeaderTo(AddAll(h, init), last);
      assert ValuesOf(hs, name) == ValuesOf(init, name) + (if last.name == name then [last.value] else []);
      if last.name == name && |ValuesOf(init, name)| == 0 {
        assert ValuesOf(hs, name) == [last.value];
      } else if last.name == name {
        var before := h.Get(name).GetOr([]);
        assert AddAll(h, init).Get(name) == Some(before + ValuesOf(init, name));
        assert AddAll(h, hs).Get(name) == Some((before + ValuesOf(init, name)) + [last.value]);
        assert ValuesOf(hs, name) == ValuesOf(init, name) + [last.value];
        assert (before + ValuesOf(init, name)) + [last.value] == before + (ValuesOf(init, name) + [last.value]);
      } else {
        assert ValuesOf(hs, name) == ValuesOf(init, name);
        assert AddAll(h, hs).Get(name) == AddAll(h, init).Get(name);
      }
    }
  }

  /** The values given for `name`, in order. */
  function ValuesOf(hs: seq<Header>, name: string): seq<string>
    decreases |hs|
  {
    if |hs| == 0 then []
    else ValuesOf(hs[..|hs| - 1], name) + (if hs[|hs| - 1].name == name then [hs[|hs| - 1].value] else [])
  }

  /** getAllHeaders yields a valid table holding exactly the headers other
      than Set-Cookie, each with its values joined by ", ", in the order the
      headers were first added. */
  lemma {:induction false} CombinedSpec(h: OMap<seq<string>>)
    requires h.Valid()
    ensures Combined(h.keys, h.vals).Valid()
    ensures Combined(h.keys, h.vals).keys == WithoutCookie(h.keys)
    ensures forall x :: Combined(h.keys, h.vals).Get(x)
                       == (if x in h.keys && x != SetCookie then Some(Strs.Join(h.vals[x], ", ")) else None)
  {
    CombinedPrefix(h.keys, h.vals, |h.keys|);
    assert h.keys[..|h.keys|] == h.keys;
  }

  /** The headers a fresh request sends: each name other than Set-Cookie
      that was given at least once, with all its given values in order,
      joined by ", ". */
  lemma SentHeaders(items: seq<Header>, x: string)
    ensures var h := AddAll(Empty(), items);
      Combined(h.keys, h.vals).Get(x)
        == (if x != SetCookie && |ValuesOf(items, x)| > 0 then Some(Strs.Join(ValuesOf(items, x), ", ")) else None)
  {
    var e: OMap<seq<string>> := Empty();
    var h := AddAll(e, items);
    AddAllValues(e, items, x);
    CombinedSpec(h);
    assert e.Get(x) == None;
    if |ValuesOf(items, x)| > 0 {
      assert [] + ValuesOf(items, x) == ValuesOf(items, x);
      assert x in h.vals && h.vals[x] == ValuesOf(items, x);
      assert x in h.keys;
    } else {
      assert x !in h.vals;
      assert x !in h.keys;
    }
  }

  lemma {:induction false} CombinedPrefix(keys: seq<string>, vals: map<string, seq<string>>, n: nat)
    requires Distinct(keys) && n <= |keys|
    requires forall k :: k in keys ==> k in vals
    ensures var r := Combined(keys[..n], vals);
      && r.Valid()
      && r.keys == WithoutCookie(keys[..n])
      && forall x :: r.Get(x) == (if x in keys[..n] && x != SetCookie then Some(Strs.Join(vals[x], ", ")) else None)
    decreases n
  {
    var p := keys[..n];
    if n > 0 {
      var init := keys[..n - 1];
      assert p[..n - 1] == init;
      CombinedPrefix(keys, vals, n - 1);
      var r := Combined(init, vals);
      var k := keys[n - 1];
      assert k !in init;
      assert forall x :: x in p <==> x in init || x == k;
      if k != SetCookie {
        assert k !in r.keys;
        PutSpec(r, k, Strs.Join(vals[k], ", "));
      }
    }
  }

  // ---------------------------------------------------------------------------
  // The request object

  class Request {
    const kind: RequestKind
    var uri: string
    var entity: Option<string>
    var headers: OMap<seq<string>>

    /** The subclass constructors set the URI; no body and no header yet. */
    constructor (kind: RequestKind, uri: string)
      ensures this.kind == kind && this.uri == uri && entity == None && headers == Empty()
    {
      this.kind := kind;
      this.uri := uri;
      entity := None;
      headers := Empty();
    }

    /** getMethod. */
    function GetMethod(): string
    {
      MethodName(kind)
    }

    method SetURI(uri: string)
      modifies this
      ensures this.uri == uri && entity == old(entity) && headers == old(headers)
    {
      this.uri := uri;
    }

    function GetURI(): string
      reads this
    {
      uri
    }

    method SetEntity(entity: Option<string>)
      modifies this
      ensures this.entity == entity && uri == old(uri) && headers == old(headers)
    {
      this.entity := entity;
    }

    function GetEntity(): Option<string>
      reads this
    {
      entity
    }

    /** addHeader. */
    method AddHeader(header: Header)
      modifies this
      ensures headers == AddHeaderTo(old(headers), header)
      ensures uri == old(uri) && entity == old(entity)
    {
      if headers.Get(header.name).None? {
        headers := headers.Put(header.name, []);
      }
      headers := headers.Put(header.name, headers.Get(header.name).value + [header.value]);
    }

    /** getAllHeaders: the for-in loop over the header names. */
    method GetAllHeaders() returns (axiosHeaders: OMap<string>)
      ensures axiosHeaders == Combined(headers.keys, headers.vals)
    {
      axiosHeaders := Empty();
      var keys := headers.keys;
      for i := 0 to |keys|
        invariant axiosHeaders == Combined(keys[..i], headers.vals)
      {
        assert keys[..i + 1][..i] == keys[..i];
        var key := keys[i];
        if key == SetCookie {
          continue;
        }
        if key in headers.vals {
          axiosHeaders := axiosHeaders.Put(key, Strs.Join(headers.vals[key], ", "));
        }
      }
      assert keys[..|keys|] == keys;
    }
  }

  /** Each class names its own method. */
  lemma MethodNames(kind: RequestKind)
    ensures MethodName(kind) in {"GET", "PUT", "POST"}
    ensures MethodName(GetWithEntity) == "GET" && MethodName(PutRequest) == "PUT"
    ensures MethodName(PostRequest) == "POST"
  {
  }

  /** The header items of the caller's map, entry by entry (the keys are not
      used). */
  function Items(headers: seq<(string, seq<Header>)>): seq<Header>
    decreases |headers|
  {
    if |headers| == 0 then [] else Items(headers[..|headers| - 1]) + headers[|headers| - 1].1
  }

  /** The inner loop of execute: every item of one entry, in order. */
  method AddHeaders(req: Request, items: seq<Header>)
    modifies req
    ensures req.headers == AddAll(old(req.headers), items)
    ensures req.uri == old(req.uri) && req.entity == old(req.entity)
  {
    for j := 0 to |items|
      invariant req.headers == AddAll(old(req.headers), items[..j])
      invariant req.uri == old(req.uri) && req.entity == old(req.entity)
    {
      assert items[..j + 1][..j] == items[..j];
      req.AddHeader(Header(items[j].name, items[j].value));
    }
    assert items[..|items|] == items;
  }

  lemma {:induction false} AddAllAppend(h: OMap<seq<string>>, a: seq<Header>, b: seq<Header>)
    ensures AddAll(AddAll(h, a), b) == AddAll(h, a + b)
    decreases |b|
  {
    if |b| > 0 {
      AddAllAppend(h, a, b[..|b| - 1]);
      assert (a + b)[..|a + b| - 1] == a + b[..|b| - 1];
    } else {
      assert a + b == a;
    }
  }

  /** execute up to the request: set the body when truthy, add every header
      item of every entry of the caller's map, and build the configuration. */
  method Execute(req: Request, httpEntity: Option<string>, timeout: int, headers: Option<seq<(string, seq<Header>)>>)
    returns (config: RequestConfig)
    modifies req
    ensures req.entity == (if Truthy(httpEntity) then httpEntity else old(req.entity))
    ensures req.headers == AddAll(old(req.headers), if headers.Some? then Items(headers.value) else [])
    ensures req.uri == old(req.uri)
    ensures config == RequestConfig(MethodName(req.kind), req.uri, req.entity,
                                    Combined(req.headers.keys, req.headers.vals), timeout)
  {
    if Truthy(httpEntity) {
      req.SetEntity(httpEntity);
    }
    if headers.Some? {
      var hs := headers.value;
      for i := 0 to |hs|
        invariant req.headers == AddAll(old(req.headers), Items(hs[..i]))
        invariant req.uri == old(req.uri)
        invariant req.entity == (if Truthy(httpEntity) then httpEntity else old(req.entity))
      {
        assert hs[..i + 1][..i] == hs[..i];
        AddAllAppend(old(req.headers), Items(hs[..i]), hs[i].1);
        AddHeaders(req, hs[i].1);
      }
      assert hs[..|hs|] == hs;
    }
    var all := req.GetAllHeaders();
    config := RequestConfig(req.GetMethod(), req.GetURI(), req.GetEntity(), all, timeout);
  }

  /** doGet: a GET with no body that passes its timeout through. */
  method DoGet(url: string, timeout: int, headers: Option<seq<(string, seq<Header>)>>)
    returns (config: RequestConfig)
    ensures config.httpMethod == "GET" && config.url == url && config.data == None
    ensures config.timeout == timeout
    ensures config.headers == Combined(AddAll(Empty(), HeaderItems(headers)).keys,
                                       AddAll(Empty(), HeaderItems(headers)).vals)
  {
    var req := new Request(GetWithEntity, url);
    config := Execute(req, None, timeout, headers);
  }

  /** doPost: a POST of the body, through doInternalPost with a timeout of
      120 whatever the caller passed. */
  method DoPost(url: string, requestBody: string, timeout: int, headers: Option<seq<(string, seq<Header>)>>)
    returns (config: RequestConfig)
    ensures config.httpMethod == "POST" && config.url == url
    ensures config.data == (if requestBody != "" then Some(requestBody) else None)
    ensures config.timeout == PostTimeout
    ensures config.headers == Combined(AddAll(Empty(), HeaderItems(headers)).keys,
                                       AddAll(Empty(), HeaderItems(headers)).vals)
  {
    config := DoInternalPost(url, Some(requestBody), PostTimeout, headers);
  }

  /** The timeout doPost uses. */
  const PostTimeout := 120

  /** doInternalPost. */
  method DoInternalPost(url: string, httpEntity: Option<string>, timeout: int, headers: Option<seq<(string, seq<Header>)>>)
    returns (config: RequestConfig)
    ensures config.httpMethod == "POST" && config.url == url
    ensures config.data == (if Truthy(httpEntity) then httpEntity else None)
    ensures config.timeout == timeout
    ensures config.headers == Combined(AddAll(Empty(), HeaderItems(headers)).keys,
                                       AddAll(Empty(), HeaderItems(headers)).vals)
  {
    var req := new Request(PostRequest, url);
    config := Execute(req, httpEntity, timeout, headers);
  }

  /** The header items of an optional map. */
  function HeaderItems(headers: Option<seq<(string, seq<Header>)>>): seq<Header>
  {
    if headers.Some? then Items(headers.value) else []
  }
}
