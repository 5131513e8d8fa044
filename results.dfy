/** Outcomes of the steps of one host's collection.

    The script signals failure by exceptions. The ones it catches are the
    three `RedfishError`s raised on an HTTP status and the connection error
    raised by the HTTP client; every other exception (a missing JSON key, a
    value of the wrong type, a division by zero) is not caught and aborts
    the whole run. `Fault` names these kinds, and `Result` carries either a
    value or the first fault met, so that `:-` gives the same
    "stop at the first raise" order as the script. */
module Results {

  datatype Option<+T> = None | Some(value: T)

  datatype Fault =
    | AuthFailed(uri: string)     // HTTP 401
    | NotFound(uri: string)       // HTTP 404
    | Unsupported(uri: string)    // any other status but 200 and 202
    | Unreachable                 // the HTTP client's connection error
    | Malformed                   // an exception the script does not catch

  datatype Result<+T> = Ok(value: T) | Fail(fault: Fault) {
    predicate IsFailure() { Fail? }

    function PropagateFailure<U>(): Result<U>
      requires Fail?
    {
      Fail(fault)
    }

    function Extract(): T
      requires Ok?
    {
      value
    }
  }

  /** A loop that applies `f` to each element in order and stops at the first
      failure: the shape of every `for ... append` loop of the collector. */
  function MapResult<T, U>(f: T -> Result<U>, xs: seq<T>): Result<seq<U>>
    decreases |xs|
  {
    if xs == [] then Ok([])
    else
      var y :- f(xs[0]);
      var ys :- MapResult(f, xs[1..]);
      Ok([y] + ys)
  }

  /** `MapResult` succeeds exactly when every step succeeds, and then it
      returns the steps' values in order, one for each element. */
  lemma {:induction false} MapResultOk<T, U>(f: T -> Result<U>, xs: seq<T>, ys: seq<U>)
    ensures MapResult(f, xs) == Ok(ys) <==>
            |ys| == |xs| && forall k :: 0 <= k < |xs| ==> f(xs[k]) == Ok(ys[k])
    decreases |xs|
  {
    if xs != [] {
      if ys == [] {
        assert MapResult(f, xs) != Ok(ys) by {
          match f(xs[0])
          case Fail(_) =>
          case Ok(y) =>
            match MapResult(f, xs[1..])
            case Fail(_) =>
            case Ok(rest) => assert |[y] + rest| > 0;
        }
      } else {
        MapResultOk(f, xs[1..], ys[1..]);
        if |ys| == |xs| && forall k :: 0 <= k < |xs| ==> f(xs[k]) == Ok(ys[k]) {
          assert f(xs[0]) == Ok(ys[0]);
          forall k | 0 <= k < |xs| - 1 ensures f(xs[1..][k]) == Ok(ys[1..][k]) {
            assert f(xs[k + 1]) == Ok(ys[k + 1]);
          }
          assert [ys[0]] + ys[1..] == ys;
        }
        if MapResult(f, xs) == Ok(ys) {
          assert f(xs[0]) == Ok(ys[0]);
          assert MapResult(f, xs[1..]) == Ok(ys[1..]);
          forall k | 0 <= k < |xs| ensures f(xs[k]) == Ok(ys[k]) {
            if k > 0 {
              assert f(xs[1..][k - 1]) == Ok(ys[1..][k - 1]);
            }
          }
        }
      }
    }
  }

  /** Every step before `k` succeeds and step `k` fails. */
  predicate FailsFirstAt<T, U>(f: T -> Result<U>, xs: seq<T>, k: nat)
  {
    k < |xs| && f(xs[k]).Fail? && forall j :: 0 <= j < k ==> f(xs[j]).Ok?
  }

  /** The first failing step decides the fault; later elements are never
      looked at. */
  lemma {:induction false} MapResultFirstFailure<T, U>(f: T -> Result<U>, xs: seq<T>, k: nat)
    requires FailsFirstAt(f, xs, k)
    ensures MapResult(f, xs) == Fail(f(xs[k]).fault)
    decreases k
  {
    if k > 0 {
      assert f(xs[0]).Ok?;
      forall j | 0 <= j < k - 1 ensures f(xs[1..][j]).Ok? {
        assert f(xs[j + 1]).Ok?;
      }
      MapResultFirstFailure(f, xs[1..], k - 1);
    }
  }

  /** Conversely, a failing `MapResult` has a first failing step, and its
      fault is that step's. */
  lemma {:induction false} MapResultFailureHasFirst<T, U>(f: T -> Result<U>, xs: seq<T>)
    requires MapResult(f, xs).Fail?
    ensures exists k: nat :: FailsFirstAt(f, xs, k) && MapResult(f, xs).fault == f(xs[k]).fault
    decreases |xs|
  {
    if f(xs[0]).Fail? {
      assert FailsFirstAt(f, xs, 0);
    } else {
      MapResultFailureHasFirst(f, xs[1..]);
      var k: nat :| FailsFirstAt(f, xs[1..], k) && MapResult(f, xs[1..]).fault == f(xs[1..][k]).fault;
      forall j | 0 <= j < k + 1 ensures f(xs[j]).Ok? {
        if j > 0 {
          assert f(xs[1..][j - 1]).Ok?;
        }
      }
      assert FailsFirstAt(f, xs, k + 1);
    }
  }

  /** One failing step makes the whole `MapResult` fail. */
  lemma {:induction false} MapResultFailsAt<T, U>(f: T -> Result<U>, xs: seq<T>, k: nat)
    requires k < |xs| && f(xs[k]).Fail?
    ensures MapResult(f, xs).Fail?
    decreases k
  {
    if k > 0 && f(xs[0]).Ok? {
      assert xs[1..][k - 1] == xs[k];
      MapResultFailsAt(f, xs[1..], k - 1);
    }
  }
}
