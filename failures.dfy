/**
 * What one HTTP call hands back to a data-access object, what the object may
 * throw, and the error-message selection repeated by every data-access
 * object: backend `error`, then backend `message`, then a fixed fallback.
 */
module Failures {
  import opened Js

  /** The settled HTTP call. `errorData` is `error.response.data` of the
      rejected call, and undefined when there was no response at all. */
  datatype Response = Success(data: JsValue) | Failure(errorData: JsValue)

  /** What an operation throws. */
  datatype Thrown =
    | UserError(message: JsValue)   // `throw new Error(message)`
    | TransportError(errorData: JsValue)  // the rejected call, propagated as is
    | TypeError                     // a property read on null or undefined, or a call of a missing method

  datatype Option<T> = None | Some(value: T)

  /** The settled promise an operation returns. */
  datatype Outcome<T> = Done(value: T) | Throws(thrown: Thrown)

  /** `Array.prototype.map` with a callback that may throw: callbacks run in
      index order and the first exception escapes. */
  function TryMap<T>(xs: seq<JsValue>, f: JsValue -> Outcome<T>): (r: Outcome<seq<T>>)
    ensures r.Done? <==> forall i :: 0 <= i < |xs| ==> f(xs[i]).Done?
    ensures r.Done? ==> |r.value| == |xs| && forall i :: 0 <= i < |xs| ==> f(xs[i]) == Done(r.value[i])
    ensures r.Throws? ==>
      exists i :: 0 <= i < |xs| && f(xs[i]) == Throws(r.thrown) && forall j :: 0 <= j < i ==> f(xs[j]).Done?
  {
    if xs == [] then Done([])
    else
      match f(xs[0])
      case Throws(t) => Throws(t)
      case Done(v) =>
        match TryMap(xs[1..], f)
        case Throws(t) =>
          assert forall j :: 1 <= j <= |xs[1..]| ==> xs[1..][j - 1] == xs[j];
          Throws(t)
        case Done(vs) =>
          assert forall j :: 1 <= j <= |xs[1..]| ==> xs[1..][j - 1] == xs[j];
          Done([v] + vs)
  }

  /** `r` is the first truthy candidate, or `fallback` when none is truthy:
      the declarative reading of `c0 || c1 || ... || fallback`. */
  ghost predicate IsFirstTruthy(candidates: seq<JsValue>, fallback: JsValue, r: JsValue) {
    || (exists i :: 0 <= i < |candidates| && IsTruthy(candidates[i]) && r == candidates[i] &&
                    forall j :: 0 <= j < i ==> !IsTruthy(candidates[j]))
    || ((forall i :: 0 <= i < |candidates| ==> !IsTruthy(candidates[i])) && r == fallback)
  }

  /** The message a data-access object throws for a failed call:
      `error?.response?.data?.error || error?.response?.data?.message || fallback`. */
  function ErrorMessage(errorData: JsValue, fallback: string): (m: JsValue)
    ensures m == OptProp(errorData, "error") || m == OptProp(errorData, "message") || m == Str(fallback)
    ensures fallback != "" ==> IsTruthy(m)
  {
    Or(Or(OptProp(errorData, "error"), OptProp(errorData, "message")), Str(fallback))
  }

  /** The selection order: the backend's `error`, then its `message`, then
      the fallback, each taken only when truthy. */
  lemma {:induction false} ErrorMessagePriority(errorData: JsValue, fallback: string)
    ensures IsFirstTruthy([OptProp(errorData, "error"), OptProp(errorData, "message")], Str(fallback),
                          ErrorMessage(errorData, fallback))
  {
    var cs := [OptProp(errorData, "error"), OptProp(errorData, "message")];
    var m := ErrorMessage(errorData, fallback);
    if IsTruthy(cs[0]) {
      assert IsTruthy(cs[0]) && m == cs[0];
    } else if IsTruthy(cs[1]) {
      assert IsTruthy(cs[1]) && m == cs[1] && forall j :: 0 <= j < 1 ==> !IsTruthy(cs[j]);
    }
  }

  /** The declarative reading determines the message: no other selection is
      consistent with the priority order. */
  lemma {:induction false} FirstTruthyUnique(candidates: seq<JsValue>, fallback: JsValue, r1: JsValue, r2: JsValue)
    requires IsFirstTruthy(candidates, fallback, r1)
    requires IsFirstTruthy(candidates, fallback, r2)
    ensures r1 == r2
  {
  }

  /** `await` of a call whose result is discarded: no value on success, the
      rejected call otherwise. */
  function Settle(res: Response): (r: Outcome<()>)
    ensures r.Done? <==> res.Success?
    ensures res.Failure? ==> r == Throws(TransportError(res.errorData))
  {
    match res
    case Success(_) => Done(())
    case Failure(d) => Throws(TransportError(d))
  }

  /** `error?.response?.data` of a caught exception: only a rejected HTTP
      call carries a response. */
  function ResponseData(t: Thrown): (d: JsValue)
    ensures !t.TransportError? ==> d == Undefined
  {
    match t
    case TransportError(d) => d
    case UserError(_) => Undefined
    case TypeError => Undefined
  }

  /** The `catch` block shared by the mutating operations: whatever the `try`
      block threw becomes `new Error(ErrorMessage(...))`; a normal result
      passes through. */
  function Rethrow<T>(o: Outcome<T>, fallback: string): (r: Outcome<T>)
    ensures r.Done? <==> o.Done?
    ensures o.Done? ==> r == o
    ensures o.Throws? ==> r.Throws? && r.thrown.UserError?
    ensures o.Throws? && fallback != "" ==> IsTruthy(r.thrown.message)
    ensures o == Throws(TypeError) ==> r == Throws(UserError(Str(fallback)))
  {
    match o
    case Done(_) => o
    case Throws(t) => Throws(UserError(ErrorMessage(ResponseData(t), fallback)))
  }

  /** A falsy `error` (the empty string, say) counts as absent, and a body
      `{error: "X"}` yields exactly "X". */
  lemma {:induction false} ErrorMessageExamples(fallback: string)
    ensures ErrorMessage(Obj(map["error" := Str(""), "message" := Str("m")]), fallback) == Str("m")
    ensures ErrorMessage(Obj(map["error" := Str("X")]), fallback) == Str("X")
    ensures ErrorMessage(Obj(map["error" := Str("X"), "message" := Str("m")]), fallback) == Str("X")
    ensures ErrorMessage(Undefined, fallback) == Str(fallback)
  {
  }
}
