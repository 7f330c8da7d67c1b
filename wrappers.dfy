// Option and Result wrappers shared by every module of the model.
// A thrown exception of the source becomes `Fail(...)`, tagged with the
// exception class the source throws and the names it reports.

module Wrappers {

  datatype Option<T> = None | Some(value: T)
  {
    predicate IsSome() { this.Some? }

    function GetOr(default: T): T
    {
      match this
      case Some(v) => v
      case None => default
    }
  }

  /** The exception classes the modelled code throws. */
  datatype ErrorKind =
    | DataConsistency   // DataConsistencyException / VsDataConsistencyException
    | Adapter           // VsAdapterException
    | BadRequest        // BadRequestException
    | Unauthorized      // UnauthorizedException
    | NotFound          // NotFoundException
    | TypeErr           // a JavaScript TypeError (property read on null/undefined)
    | Generic           // a plain Error
    | ScriptCompile     // ScriptCompileException

  /** A thrown exception: its class, what went wrong (an English gloss of the
      message) and the identifiers the message names. */
  datatype Failure = Failure(kind: ErrorKind, reason: string, subjects: seq<string>)

  datatype Result<T> = Ok(value: T) | Fail(failure: Failure)
  {
    predicate IsOk() { this.Ok? }
  }

  /** The outcome of an operation that returns nothing but may throw. */
  datatype Outcome = Pass | Throw(failure: Failure)

  // ---------------------------------------------------------------------------
  // A loop that stops at the first exception

  /** `xs.map(f)` where `f` may throw: every result in order, or the failure of
      the first element that fails. */
  function MapAll<A, B>(xs: seq<A>, f: A -> Result<B>): Result<seq<B>>
    decreases |xs|
  {
    if |xs| == 0 then Ok([])
    else
      match MapAll(xs[..|xs| - 1], f)
      case Fail(e) => Fail(e)
      case Ok(ys) =>
        match f(xs[|xs| - 1])
        case Fail(e) => Fail(e)
        case Ok(y) => Ok(ys + [y])
  }

  /** A loop that passes holds the result of every element, in order. */
  lemma {:induction false} MapAllOkValues<A, B>(xs: seq<A>, f: A -> Result<B>)
    requires MapAll(xs, f).Ok?
    ensures |MapAll(xs, f).value| == |xs|
    ensures forall i :: 0 <= i < |xs| ==> f(xs[i]) == Ok(MapAll(xs, f).value[i])
    decreases |xs|
  {
    if |xs| > 0 {
      var last := |xs| - 1;
      MapAllOkValues(xs[..last], f);
      forall i | 0 <= i < last ensures f(xs[i]) == Ok(MapAll(xs, f).value[i]) {
        assert xs[..last][i] == xs[i];
      }
    }
  }

  /** A failing loop fails at an element all of whose predecessors pass. */
  lemma {:induction false} MapAllFail<A, B>(xs: seq<A>, f: A -> Result<B>)
    requires MapAll(xs, f).Fail?
    ensures exists i :: (0 <= i < |xs| && f(xs[i]) == Fail(MapAll(xs, f).failure)
                         && forall j :: 0 <= j < i ==> f(xs[j]).Ok?)
    decreases |xs|
  {
    var last := |xs| - 1;
    var e := MapAll(xs, f).failure;
    if MapAll(xs[..last], f).Fail? {
      MapAllFail(xs[..last], f);
      var i :| 0 <= i < last && f(xs[..last][i]) == Fail(e) && forall j :: 0 <= j < i ==> f(xs[..last][j]).Ok?;
      assert xs[..last][i] == xs[i];
      forall j | 0 <= j < i ensures f(xs[j]).Ok? {
        assert xs[j] == xs[..last][j];
      }
    } else {
      assert f(xs[last]) == Fail(e);
      MapAllOkValues(xs[..last], f);
      forall j | 0 <= j < last ensures f(xs[j]).Ok? {
        assert xs[j] == xs[..last][j];
      }
    }
  }

  /** When every element passes, so does the loop. */
  lemma {:induction false} MapAllOk<A, B>(xs: seq<A>, f: A -> Result<B>)
    requires forall i :: 0 <= i < |xs| ==> f(xs[i]).Ok?
    ensures MapAll(xs, f).Ok?
    decreases |xs|
  {
    if |xs| > 0 {
      var last := |xs| - 1;
      forall i | 0 <= i < last ensures f(xs[..last][i]).Ok? {
        assert xs[..last][i] == xs[i];
      }
      MapAllOk(xs[..last], f);
    }
  }

  /** One more element of the loop: its result is appended, or its failure
      ends the loop. */
  lemma MapAllStep<A, B>(xs: seq<A>, f: A -> Result<B>, k: nat, ys: seq<B>)
    requires k < |xs| && MapAll(xs[..k], f) == Ok(ys)
    ensures f(xs[k]).Ok? ==> MapAll(xs[..k + 1], f) == Ok(ys + [f(xs[k]).value])
    ensures f(xs[k]).Fail? ==> MapAll(xs[..k + 1], f) == Fail(f(xs[k]).failure)
  {
    assert xs[..k + 1][..k] == xs[..k];
  }

  /** Once a prefix fails, the whole loop fails the same way. */
  lemma {:induction false} MapAllFailSticks<A, B>(xs: seq<A>, f: A -> Result<B>, k: nat)
    requires k <= |xs| && MapAll(xs[..k], f).Fail?
    ensures MapAll(xs, f) == MapAll(xs[..k], f)
    decreases |xs| - k
  {
    if k < |xs| {
      assert xs[..k + 1][..k] == xs[..k];
      MapAllFailSticks(xs, f, k + 1);
    } else {
      assert xs[..k] == xs;
    }
  }

  /** `for (const k of keys) m.set(k, f(k))` where `f` may throw: the table of
      all results, or the failure of the first key that fails. */
  function Tabulate<V>(keys: seq<string>, f: string -> Result<V>): Result<map<string, V>>
    decreases |keys|
  {
    if |keys| == 0 then Ok(map[])
    else
      var last := keys[|keys| - 1];
      match Tabulate(keys[..|keys| - 1], f)
      case Fail(e) => Fail(e)
      case Ok(m) =>
        match f(last)
        case Fail(e) => Fail(e)
        case Ok(x) => Ok(m[last := x])
  }

  /** A table that passes has exactly the given keys, each with its result. */
  lemma {:induction false} TabulateOkValues<V>(keys: seq<string>, f: string -> Result<V>)
    requires Tabulate(keys, f).Ok?
    ensures Tabulate(keys, f).value.Keys == set k | k in keys
    ensures forall k :: k in keys ==> f(k) == Ok(Tabulate(keys, f).value[k])
    decreases |keys|
  {
    if |keys| > 0 {
      var init := keys[..|keys| - 1];
      var last := keys[|keys| - 1];
      TabulateOkValues(init, f);
      assert keys == init + [last];
      forall k | k in keys ensures f(k) == Ok(Tabulate(keys, f).value[k]) {
        if k != last {
          assert k in init;
        }
      }
    }
  }

  /** A failing table fails with the failure of one of its keys. */
  lemma {:induction false} TabulateFail<V>(keys: seq<string>, f: string -> Result<V>)
    requires Tabulate(keys, f).Fail?
    ensures exists k :: k in keys && f(k) == Fail(Tabulate(keys, f).failure)
    decreases |keys|
  {
    var e := Tabulate(keys, f).failure;
    var init := keys[..|keys| - 1];
    if Tabulate(init, f).Fail? {
      TabulateFail(init, f);
      var k :| k in init && f(k) == Fail(e);
      assert k in keys;
    } else {
      assert keys[|keys| - 1] in keys;
    }
  }

  /** One more key of the table: its result is added, or its failure ends
      the table. */
  lemma TabulateStep<V>(keys: seq<string>, f: string -> Result<V>, k: nat, m: map<string, V>)
    requires k < |keys| && Tabulate(keys[..k], f) == Ok(m)
    ensures f(keys[k]).Ok? ==> Tabulate(keys[..k + 1], f) == Ok(m[keys[k] := f(keys[k]).value])
    ensures f(keys[k]).Fail? ==> Tabulate(keys[..k + 1], f) == Fail(f(keys[k]).failure)
  {
    assert keys[..k + 1][..k] == keys[..k];
  }

  /** Once a prefix of the keys fails, the whole table fails the same way. */
  lemma {:induction false} TabulateFailSticks<V>(keys: seq<string>, f: string -> Result<V>, k: nat)
    requires k <= |keys| && Tabulate(keys[..k], f).Fail?
    ensures Tabulate(keys, f) == Tabulate(keys[..k], f)
    decreases |keys| - k
  {
    if k < |keys| {
      assert keys[..k + 1][..k] == keys[..k];
      TabulateFailSticks(keys, f, k + 1);
    } else {
      assert keys[..k] == keys;
    }
  }
}
