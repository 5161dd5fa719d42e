/**
 * The course-unit data-access object. A unit is built straight from the
 * response body (there is no envelope to unwrap); its track list defaults to
 * the empty list only when the body's is null or undefined. Only `update`
 * and `delete` translate failures; `list`, `get` and `create` let them
 * through.
 */
module UeDao {
  import opened Js
  import opened Failures

  const UpdateFallback: string := "Impossible de modifier l'UE"
  const DeleteFallback: string := "Impossible de supprimer l'UE"

  /** `new UE(ID, Intitule, NumeroUe, Parcours)`, taken to store its four
      arguments in order. */
  datatype Ue = Ue(ID: JsValue, Intitule: JsValue, NumeroUe: JsValue, Parcours: JsValue)

  /** `new UE(ue.ID, ue.Intitule, ue.NumeroUe, ue.Parcours ?? [])`: the
      three fields copied, the track list kept whenever it is present (even
      empty or falsy) and the empty list otherwise. */
  function FromBody(ue: JsValue): (r: Outcome<Ue>)
    ensures r.Done? <==> !IsNullish(ue)
    ensures r.Throws? ==> r.thrown == TypeError
    ensures r.Done? ==> r.value.ID == Prop(ue, "ID") && r.value.Intitule == Prop(ue, "Intitule") &&
                        r.value.NumeroUe == Prop(ue, "NumeroUe")
    ensures r.Done? ==> !IsNullish(r.value.Parcours)
    ensures r.Done? && !IsNullish(Prop(ue, "Parcours")) ==> r.value.Parcours == Prop(ue, "Parcours")
    ensures r.Done? && IsNullish(Prop(ue, "Parcours")) ==> r.value.Parcours == Arr([])
  {
    if IsNullish(ue) then Throws(TypeError)
    else Done(Ue(Prop(ue, "ID"), Prop(ue, "Intitule"), Prop(ue, "NumeroUe"), Coalesce(Prop(ue, "Parcours"), Arr([]))))
  }

  /** `list()` given the settled GET: element by element, in order. */
  function List(res: Response): (r: Outcome<seq<Ue>>)
    ensures res.Failure? ==> r == Throws(TransportError(res.errorData))
    ensures r.Done? <==> res.Success? && res.data.Arr? &&
                         forall i :: 0 <= i < |res.data.items| ==> !IsNullish(res.data.items[i])
    ensures r.Done? ==> |r.value| == |res.data.items| &&
                        forall i :: 0 <= i < |r.value| ==> FromBody(res.data.items[i]) == Done(r.value[i])
    ensures res.Success? && r.Throws? ==> r.thrown == TypeError
  {
    match res
    case Failure(d) => Throws(TransportError(d))
    case Success(data) => if data.Arr? then TryMap(data.items, FromBody) else Throws(TypeError)
  }

  /** `get(id)` and `create(data)` given the settled call: the body itself
      is the unit, and nothing is translated. (The request body of `create`,
      `UE.toJSON()`, is not part of this model.) */
  function Get(res: Response): (r: Outcome<Ue>)
    ensures res.Failure? ==> r == Throws(TransportError(res.errorData))
    ensures res.Success? ==> r == FromBody(res.data)
  {
    match res
    case Failure(d) => Throws(TransportError(d))
    case Success(body) => FromBody(body)
  }

  /** `update(id, data)` given the settled PUT: a failure, or a body with no
      fields to read, becomes an Error with the selected message. */
  function Update(res: Response): (r: Outcome<Ue>)
    ensures res.Success? && !IsNullish(res.data) ==> r == FromBody(res.data)
    ensures res.Failure? ==> r == Throws(UserError(ErrorMessage(res.errorData, UpdateFallback)))
    ensures res.Success? && IsNullish(res.data) ==> r == Throws(UserError(Str(UpdateFallback)))
    ensures r.Throws? ==> r.thrown.UserError? && IsTruthy(r.thrown.message)
  {
    Rethrow(Get(res), UpdateFallback)
  }

  /** `delete(id)` given the settled DELETE. */
  function Delete(res: Response): (r: Outcome<()>)
    ensures r == Done(()) <==> res.Success?
    ensures res.Failure? ==> r == Throws(UserError(ErrorMessage(res.errorData, DeleteFallback)))
  {
    Rethrow(Settle(res), DeleteFallback)
  }

  /** The request body of `setParcoursForUe`: `{parcoursIds}`. */
  function ParcoursIdsBody(parcoursIds: seq<int>): (body: JsValue)
    ensures body.Obj? && body.fields.Keys == {"parcoursIds"}
    ensures var v := body.fields["parcoursIds"];
      v.Arr? && |v.items| == |parcoursIds| && forall i :: 0 <= i < |parcoursIds| ==> v.items[i] == Num(parcoursIds[i])
  {
    Obj(map["parcoursIds" := Arr(seq(|parcoursIds|, i requires 0 <= i < |parcoursIds| => Num(parcoursIds[i])))])
  }

  /** Reads a list of numbers back from a JSON array. */
  function NumbersOf(v: JsValue): Option<seq<int>> {
    if v.Arr? && forall i :: 0 <= i < |v.items| ==> v.items[i].Num? then
      Some(seq(|v.items|, i requires 0 <= i < |v.items| && v.items[i].Num? => v.items[i].n))
    else None
  }

  /** Reading the array under `parcoursIds` back as numbers gives exactly
      the ids `setParcoursForUe` was called with, in order. */
  lemma {:induction false} ParcoursIdsRoundTrip(parcoursIds: seq<int>)
    ensures NumbersOf(Prop(ParcoursIdsBody(parcoursIds), "parcoursIds")) == Some(parcoursIds)
  {
    var v := Prop(ParcoursIdsBody(parcoursIds), "parcoursIds");
    assert |v.items| == |parcoursIds|;
    assert NumbersOf(v).Some?;
    assert NumbersOf(v).value == parcoursIds;
  }

  /** No envelope is unwrapped: a body `{message, ue}` gives a unit whose
      fields are read from the envelope itself, so they are all undefined
      except the defaulted track list. */
  lemma {:induction false} NoEnvelopeUnwrap(message: JsValue, ue: JsValue)
    ensures Get(Success(Obj(map["message" := message, "ue" := ue]))) ==
            Done(Ue(Undefined, Undefined, Undefined, Arr([])))
  {
  }
}
