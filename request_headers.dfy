// The request-header copy of the run service
// (apps/vs-run/src/utils/httpUtils.ts, HttpUtil.makeRequestHeaderMap): the
// incoming headers the flow's tasks see, without the ones the outbound HTTP
// client sets itself.

module RequestHeaders {
  import opened Wrappers
  import opened Strs

  /** A value of the incoming header object: a string, a list of strings
      (a repeated header), or absent. */
  datatype HeaderValue = Single(s: string) | Multi(vs: seq<string>) | Absent

  /** One `[name, value]` pair of `Object.entries(request.headers)`. */
  datatype HeaderEntry = HeaderEntry(name: string, value: HeaderValue)

  /** The header is left out of the copy: content-length and accept-encoding
      always, content-type when the request's content type (`contentType`,
      the value of `request.get('content-type')`) is a non-empty string that
      contains multipart/form-data; all compared without regard to case. */
  predicate Skipped(name: string, contentType: Option<string>)
  {
    || ToLower(name) == "content-length"
    || ToLower(name) == "accept-encoding"
    || (&& ToLower(name) == "content-type"
        && contentType.Some? && |contentType.value| > 0
        && Contains(ToLower(contentType.value), "multipart/form-data"))
  }

  /** The value copied for a header that is not skipped: a string as it is,
      the first element of a non-empty list, nothing for an empty list or an
      absent value. */
  function Copied(v: HeaderValue): Option<string>
  {
    match v
    case Single(s) => Some(s)
    case Multi(vs) => if |vs| > 0 then Some(vs[0]) else None
    case Absent => None
  }

  /** What one entry adds to the copy. */
  function Kept(e: HeaderEntry, contentType: Option<string>): Option<string>
  {
    if Skipped(e.name, contentType) then None else Copied(e.value)
  }

  /** The copy after the entries `es`, taken in order. */
  function HeaderMapOf(es: seq<HeaderEntry>, contentType: Option<string>): map<string, string>
    decreases |es|
  {
    if |es| == 0 then map[]
    else
      var m := HeaderMapOf(es[..|es| - 1], contentType);
      var e := es[|es| - 1];
      match Kept(e, contentType)
      case Some(v) => m[e.name := v]
      case None => m
  }

  /** The names of an object's entries are distinct. */
  predicate DistinctNames(es: seq<HeaderEntry>)
  {
    forall i, j :: 0 <= i < j < |es| ==> es[i].name != es[j].name
  }

  /** HttpUtil.makeRequestHeaderMap: one pass over the entries, skipping the
      headers the client sets and keeping one value per header. */
  method MakeRequestHeaderMap(es: seq<HeaderEntry>, contentType: Option<string>)
    returns (m: map<string, string>)
    ensures m == HeaderMapOf(es, contentType)
  {
    m := map[];
    for i := 0 to |es|
      invariant m == HeaderMapOf(es[..i], contentType)
    {
      assert es[..i + 1][..i] == es[..i];
      var e := es[i];
      if Skipped(e.name, contentType) {
        continue;
      }
      match e.value {
        case Multi(vs) =>
          if |vs| > 0 {
            m := m[e.name := vs[0]];
          }
        case Single(s) =>
          m := m[e.name := s];
        case Absent =>
      }
    }
    assert es[..|es|] == es;
  }

  /** Every name of the copy is the name of an entry that is not skipped, so
      the copy's names are among the request's. */
  lemma {:induction false} HeaderMapNames(es: seq<HeaderEntry>, contentType: Option<string>)
    ensures forall k :: k in HeaderMapOf(es, contentType) ==>
      !Skipped(k, contentType) && exists i :: 0 <= i < |es| && es[i].name == k
    decreases |es|
  {
    if |es| > 0 {
      var init := es[..|es| - 1];
      HeaderMapNames(init, contentType);
      forall k | k in HeaderMapOf(es, contentType)
        ensures !Skipped(k, contentType) && exists i :: 0 <= i < |es| && es[i].name == k
      {
        if k in HeaderMapOf(init, contentType) {
          var i :| 0 <= i < |init| && init[i].name == k;
          assert es[i] == init[i];
        } else {
          assert es[|es| - 1].name == k;
        }
      }
    }
  }

  /** With distinct names, each entry's header is in the copy exactly when
      the entry is kept, and then with the kept value: a skipped header or
      an empty list is missing, a string is copied as it is and a list
      gives its first element. */
  lemma {:induction false} HeaderMapEntries(es: seq<HeaderEntry>, contentType: Option<string>)
    requires DistinctNames(es)
    ensures forall i :: 0 <= i < |es| ==>
      (es[i].name in HeaderMapOf(es, contentType) <==> Kept(es[i], contentType).Some?)
    ensures forall i :: 0 <= i < |es| && es[i].name in HeaderMapOf(es, contentType) ==>
      HeaderMapOf(es, contentType)[es[i].name] == Kept(es[i], contentType).value
    decreases |es|
  {
    if |es| > 0 {
      var init := es[..|es| - 1];
      var last := es[|es| - 1];
      assert DistinctNames(init) by {
        forall i, j | 0 <= i < j < |init| ensures init[i].name != init[j].name {
          assert init[i] == es[i] && init[j] == es[j];
        }
      }
      HeaderMapEntries(init, contentType);
      HeaderMapNames(init, contentType);
      forall i | 0 <= i < |init| ensures init[i].name != last.name {
        assert init[i] == es[i];
      }
      forall i | 0 <= i < |es| - 1
        ensures es[i].name in HeaderMapOf(es, contentType) <==> Kept(es[i], contentType).Some?
        ensures es[i].name in HeaderMapOf(es, contentType) ==>
          HeaderMapOf(es, contentType)[es[i].name] == Kept(es[i], contentType).value
      {
        assert es[i] == init[i] && es[i].name != last.name;
      }
    }
  }
}
