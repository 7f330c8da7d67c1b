// URL building of libs/utils/http/HttpUtil.ts: makeUrlWithParams appends
// the query string buildQueryParamStr makes of the parameters.  Parameters
// are read with Object.entries, so a plain object contributes its own
// properties in order, while a real `Map` (whose entries are not own
// properties) contributes none.  Keys and values are copied verbatim, with
// no percent-encoding.

module HttpUtils {
  import opened Wrappers
  import Strs

  /** The parameter argument: a plain object (`null`/`undefined` values are
      `None`) or a real `Map`. */
  datatype ParamArg =
    | PlainObject(entries: seq<(string, Option<string>)>)
    | RealMap(pairs: seq<(string, string)>)

  /** Object.entries of the argument. */
  function Entries(p: ParamArg): seq<(string, Option<string>)>
  {
    match p
    case PlainObject(es) => es
    case RealMap(_) => []
  }

  /** One entry of the query: `key=value`, or `key=` when the value is null
      or undefined. */
  function Param(key: string, val: Option<string>): string
  {
    match val
    case Some(v) => key + "=" + v
    case None => key + "="
  }

  /** The entries rendered one by one. */
  function Params(es: seq<(string, Option<string>)>): (r: seq<string>)
    ensures |r| == |es|
    ensures forall i :: 0 <= i < |es| ==> r[i] == Param(es[i].0, es[i].1)
  {
    seq(|es|, i requires 0 <= i < |es| => Param(es[i].0, es[i].1))
  }

  /** The query suffix: `?` and the entries joined with `&`, or nothing when
      there are none. */
  function QuerySuffix(p: ParamArg): string
  {
    if |Entries(p)| > 0 then "?" + Strs.Join(Params(Entries(p)), "&") else ""
  }

  /** buildQueryParamStr: push each entry, join, and prefix `?` when the
      joined text is not empty. */
  method BuildQueryParamStr(queryParams: ParamArg) returns (r: string)
    ensures r == QuerySuffix(queryParams)
  {
    var es := Entries(queryParams);
    var params: seq<string> := [];
    for i := 0 to |es|
      invariant params == Params(es[..i])
    {
      params := params + [Param(es[i].0, es[i].1)];
    }
    assert es[..|es|] == es;
    var paramStr := Strs.Join(params, "&");
    JoinEmptyIff(params);
    r := if |paramStr| > 0 then "?" + paramStr else "";
  }

  /** makeUrlWithParams. */
  method MakeUrlWithParams(url: string, paramMap: ParamArg) returns (r: string)
    ensures r == url + QuerySuffix(paramMap)
  {
    var paramStr := BuildQueryParamStr(paramMap);
    r := url + paramStr;
  }

  /** Every rendered entry holds its `=`, so the joined entries are empty
      exactly when there are none. */
  lemma JoinEmptyIff(params: seq<string>)
    requires forall i :: 0 <= i < |params| ==> |params[i]| > 0
    ensures |Strs.Join(params, "&")| > 0 <==> |params| > 0
  {
    if |params| > 0 {
      JoinHasFirst(params);
    }
  }

  lemma JoinHasFirst(params: seq<string>)
    requires |params| > 0
    ensures |Strs.Join(params, "&")| >= |params[0]|
  {
  }

  /** The url is returned unchanged exactly when there are no entries: a real
      `Map` and an empty object both leave it bare. */
  lemma BareUrl(url: string, p: ParamArg)
    ensures url + QuerySuffix(p) == url <==> |Entries(p)| == 0
    ensures p.RealMap? ==> url + QuerySuffix(p) == url
  {
    if |Entries(p)| > 0 {
      assert |QuerySuffix(p)| > 0;
    }
  }

  // ---------------------------------------------------------------------------
  // Reading the query back

  /** `s` cut at every `c`. */
  function Split(s: string, c: char): (r: seq<string>)
    ensures |r| >= 1
    decreases |s|
  {
    if |s| == 0 then [""]
    else if s[0] == c then [""] + Split(s[1..], c)
    else var rest := Split(s[1..], c); [[s[0]] + rest[0]] + rest[1..]
  }

  /** A piece without the separator, then the separator: the piece comes off
      first. */
  lemma {:induction false} SplitAfter(a: string, c: char, b: string)
    requires c !in a
    ensures Split(a + [c] + b, c) == [a] + Split(b, c)
    decreases |a|
  {
    if |a| == 0 {
      assert a + [c] + b == [c] + b;
      assert ([c] + b)[1..] == b;
    } else {
      var s := a + [c] + b;
      assert s[0] == a[0];
      assert s[1..] == a[1..] + [c] + b;
      SplitAfter(a[1..], c, b);
      assert [a[0]] + a[1..] == a;
    }
  }

  /** Splitting a join of pieces free of the separator gives the pieces
      back. */
  lemma {:induction false} SplitJoin(parts: seq<string>, c: char)
    requires |parts| > 0
    requires forall i :: 0 <= i < |parts| ==> c !in parts[i]
    ensures Split(Strs.Join(parts, [c]), c) == parts
    decreases |parts|
  {
    if |parts| == 1 {
      SplitNone(parts[0], c);
    } else {
      SplitJoin(parts[1..], c);
      assert Strs.Join(parts, [c]) == parts[0] + [c] + Strs.Join(parts[1..], [c]);
      SplitAfter(parts[0], c, Strs.Join(parts[1..], [c]));
      assert [parts[0]] + parts[1..] == parts;
    }
  }

  lemma {:induction false} SplitNone(s: string, c: char)
    requires c !in s
    ensures Split(s, c) == [s]
    decreases |s|
  {
    if |s| > 0 {
      SplitNone(s[1..], c);
      assert [s[0]] + s[1..] == s;
    }
  }

  /** An entry of a query string read back: the text before the first `=`
      and the text after it. */
  function KeyValue(p: string): (string, string)
    decreases |p|
  {
    if |p| == 0 then ("", "")
    else if p[0] == '=' then ("", p[1..])
    else var kv := KeyValue(p[1..]); ([p[0]] + kv.0, kv.1)
  }

  lemma {:induction false} KeyValueOf(k: string, v: string)
    requires '=' !in k
    ensures KeyValue(k + "=" + v) == (k, v)
    decreases |k|
  {
    if |k| == 0 {
      assert k + "=" + v == ['='] + v;
      assert (['='] + v)[1..] == v;
    } else {
      var s := k + "=" + v;
      assert s[0] == k[0] && s[1..] == k[1..] + "=" + v;
      KeyValueOf(k[1..], v);
      assert [k[0]] + k[1..] == k;
    }
  }

  /** The query string of a url suffix read back into entries. */
  function ParseQuery(suffix: string): seq<(string, string)>
  {
    if |suffix| == 0 || suffix[0] != '?' then []
    else var parts := Split(suffix[1..], '&');
      seq(|parts|, i requires 0 <= i < |parts| => KeyValue(parts[i]))
  }

  /** The parameters read back: a null or undefined value reads back as the
      empty string. */
  function Expected(es: seq<(string, Option<string>)>): (r: seq<(string, string)>)
    ensures |r| == |es|
  {
    seq(|es|, i requires 0 <= i < |es| => (es[i].0, es[i].1.GetOr("")))
  }

  /** Without percent-encoding, the query reads back to its entries as long
      as no key holds `&` or `=` and no value holds `&`. */
  lemma QueryRoundTrip(p: ParamArg)
    requires forall i :: 0 <= i < |Entries(p)| ==>
      '&' !in Entries(p)[i].0 && '=' !in Entries(p)[i].0 && '&' !in Entries(p)[i].1.GetOr("")
    ensures ParseQuery(QuerySuffix(p)) == Expected(Entries(p))
  {
    var es := Entries(p);
    if |es| > 0 {
      var ps := Params(es);
      forall i | 0 <= i < |ps| ensures '&' !in ps[i] {
        assert ps[i] == es[i].0 + "=" + es[i].1.GetOr("");
      }
      SplitJoin(ps, '&');
      assert QuerySuffix(p)[1..] == Strs.Join(ps, "&");
      forall i | 0 <= i < |es| ensures KeyValue(ps[i]) == (es[i].0, es[i].1.GetOr("")) {
        assert ps[i] == es[i].0 + "=" + es[i].1.GetOr("");
        KeyValueOf(es[i].0, es[i].1.GetOr(""));
      }
    }
  }

  /** A value holding `&` does not survive: `{a: "1&b=2"}` reads back as two
      entries. */
  lemma AmpersandValueSplits()
    ensures ParseQuery(QuerySuffix(PlainObject([("a", Some("1&b=2"))]))) == [("a", "1"), ("b", "2")]
  {
    var p := PlainObject([("a", Some("1&b=2"))]);
    var entry := "a=1" + ['&'] + "b=2";
    assert Param("a", Some("1&b=2")) == entry;
    assert Params(Entries(p)) == [entry];
    assert Strs.Join([entry], "&") == entry;
    assert QuerySuffix(p) == "?" + entry;
    assert QuerySuffix(p)[1..] == entry;
    SplitAfter("a=1", '&', "b=2");
    SplitNone("b=2", '&');
    KeyValueOf("a", "1");
    KeyValueOf("b", "2");
  }
}
