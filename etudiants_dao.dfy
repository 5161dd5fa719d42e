/**
 * The student data-access object with the HTTP calls taken out: every
 * operation receives the settled call as a Response and returns the settled
 * promise as an Outcome. What remains is the normalisation of the response:
 * the envelope unwrap, the three-tier track resolution, the field back-fill
 * on update, and the error-message selection.
 */
module EtudiantsDao {
  import opened Js
  import opened Failures
  import opened EtudiantEntity

  const CreateFallback: string := "Impossible de créer l'étudiant"
  const UpdateFallback: string := "Impossible de modifier l'étudiant"
  const DeleteFallback: string := "Impossible de supprimer l'étudiant"

  /** `res.data?.etudiant ?? res.data`: the enveloped student when the body
      has one that is not null or undefined (a falsy one included), the body
      itself otherwise. */
  function Unwrap(body: JsValue): (e: JsValue)
    ensures !IsNullish(OptProp(body, "etudiant")) ==> e == OptProp(body, "etudiant")
    ensures IsNullish(OptProp(body, "etudiant")) ==> e == body
    ensures IsNullish(e) <==> IsNullish(body)
  {
    Coalesce(OptProp(body, "etudiant"), body)
  }

  /** The track of a mapped student: an embedded `parcours` if truthy, else a
      stub from a truthy `parcours_id`, else `otherwise`. */
  function ResolveParcours(e: JsValue, otherwise: JsValue): (p: JsValue)
    requires !IsNullish(e)
    ensures IsTruthy(Prop(e, "parcours")) ==> p == Prop(e, "parcours")
    ensures !IsTruthy(Prop(e, "parcours")) && IsTruthy(Prop(e, "parcours_id")) ==>
              p == Stub(Prop(e, "parcours_id")) && ForeignKey(p) == Prop(e, "parcours_id")
    ensures !IsTruthy(Prop(e, "parcours")) && !IsTruthy(Prop(e, "parcours_id")) ==> p == otherwise
    ensures p != otherwise ==> IsTruthy(Prop(e, "parcours")) || IsTruthy(Prop(e, "parcours_id"))
  {
    if IsTruthy(Prop(e, "parcours")) then Prop(e, "parcours")
    else if IsTruthy(Prop(e, "parcours_id")) then Stub(Prop(e, "parcours_id"))
    else otherwise
  }

  /** The callback of `list`: reading a field of a null or undefined element
      throws. */
  function FromListed(e: JsValue): (r: Outcome<Etudiant>)
    ensures r.Done? <==> !IsNullish(e)
    ensures r.Throws? ==> r.thrown == TypeError
    ensures r.Done? ==> r.value.ID == Prop(e, "ID") && r.value.nom == Prop(e, "nom") &&
                        r.value.prenom == Prop(e, "prenom") && r.value.email == Prop(e, "email")
    ensures r.Done? ==> r.value.parcours == ResolveParcours(e, Null)
  {
    if IsNullish(e) then Throws(TypeError)
    else Done(Etudiant(Prop(e, "ID"), Prop(e, "nom"), Prop(e, "prenom"), Prop(e, "email"), ResolveParcours(e, Null)))
  }

  /** `list()`: no error translation; a body that is not an array has no
      `map` to call. */
  function List(res: Response): (r: Outcome<seq<Etudiant>>)
    ensures res.Failure? ==> r == Throws(TransportError(res.errorData))
    ensures r.Done? <==> res.Success? && res.data.Arr? &&
                         forall i :: 0 <= i < |res.data.items| ==> !IsNullish(res.data.items[i])
    ensures r.Done? ==> |r.value| == |res.data.items| &&
                        forall i :: 0 <= i < |r.value| ==> FromListed(res.data.items[i]) == Done(r.value[i])
    ensures res.Success? && r.Throws? ==> r.thrown == TypeError
  {
    match res
    case Failure(d) => Throws(TransportError(d))
    case Success(data) => if data.Arr? then TryMap(data.items, FromListed) else Throws(TypeError)
  }

  /** The request body of `create` and `update`. */
  function Payload(data: Etudiant): (j: JsValue)
    ensures j.Obj? && j.fields.Keys == WireKeys && "ID" !in j.fields
    ensures j.fields["nom"] == data.nom && j.fields["prenom"] == data.prenom && j.fields["email"] == data.email
    ensures j.fields["parcours_id"] == ForeignKey(data.parcours)
  {
    Obj(map["nom" := data.nom, "prenom" := data.prenom, "email" := data.email,
            "parcours_id" := Coalesce(OptProp(data.parcours, "ID"), Null)])
  }

  /** The request body is the student's own serialisation. */
  lemma {:induction false} PayloadIsToJson(data: Etudiant)
    ensures Payload(data) == ToJson(data)
    ensures Payload(data).fields.Keys == WireKeys
  {
  }

  /** The `try` block of `create`, before the `catch`. */
  function TryCreate(data: Etudiant, res: Response): Outcome<Etudiant> {
    match res
    case Failure(d) => Throws(TransportError(d))
    case Success(body) =>
      var e := Unwrap(body);
      if IsNullish(e) then Throws(TypeError)
      else Done(Etudiant(Prop(e, "ID"), Prop(e, "nom"), Prop(e, "prenom"), Prop(e, "email"),
                         ResolveParcours(e, Coalesce(data.parcours, Null))))
  }

  /** `create(data)` given the settled POST. */
  function Create(data: Etudiant, res: Response): (r: Outcome<Etudiant>)
    ensures r.Done? <==> res.Success? && !IsNullish(res.data)
    ensures res.Failure? ==> r == Throws(UserError(ErrorMessage(res.errorData, CreateFallback)))
    ensures res.Success? && IsNullish(res.data) ==> r == Throws(UserError(Str(CreateFallback)))
    ensures r.Throws? ==> r.thrown.UserError? && IsTruthy(r.thrown.message)
    ensures r.Done? ==> var e := Unwrap(res.data);
      && r.value.ID == Prop(e, "ID") && r.value.nom == Prop(e, "nom")
      && r.value.prenom == Prop(e, "prenom") && r.value.email == Prop(e, "email")
      && r.value.parcours == ResolveParcours(e, Coalesce(data.parcours, Null))
  {
    Rethrow(TryCreate(data, res), CreateFallback)
  }

  /** The `try` block of `update`, before the `catch`. */
  function TryUpdate(id: int, data: Etudiant, res: Response): Outcome<Etudiant> {
    match res
    case Failure(d) => Throws(TransportError(d))
    case Success(body) =>
      var e := Unwrap(body);
      if IsNullish(e) then Throws(TypeError)
      else Done(Etudiant(Coalesce(Prop(e, "ID"), Num(id)), Coalesce(Prop(e, "nom"), data.nom),
                         Coalesce(Prop(e, "prenom"), data.prenom), Coalesce(Prop(e, "email"), data.email),
                         ResolveParcours(e, Coalesce(data.parcours, Null))))
  }

  /** `update(id, data)` given the settled PUT. */
  function Update(id: int, data: Etudiant, res: Response): (r: Outcome<Etudiant>)
    ensures r.Done? <==> res.Success? && !IsNullish(res.data)
    ensures res.Failure? ==> r == Throws(UserError(ErrorMessage(res.errorData, UpdateFallback)))
    ensures res.Success? && IsNullish(res.data) ==> r == Throws(UserError(Str(UpdateFallback)))
    ensures r.Throws? ==> r.thrown.UserError? && IsTruthy(r.thrown.message)
    ensures r.Done? ==> !IsNullish(r.value.ID)
    ensures r.Done? ==> var e := Unwrap(res.data);
      && (!IsNullish(Prop(e, "ID")) ==> r.value.ID == Prop(e, "ID"))
      && (!IsNullish(Prop(e, "nom")) ==> r.value.nom == Prop(e, "nom"))
      && (!IsNullish(Prop(e, "prenom")) ==> r.value.prenom == Prop(e, "prenom"))
      && (!IsNullish(Prop(e, "email")) ==> r.value.email == Prop(e, "email"))
      && r.value.parcours == ResolveParcours(e, Coalesce(data.parcours, Null))
  {
    Rethrow(TryUpdate(id, data, res), UpdateFallback)
  }

  /** `delete(id)` given the settled DELETE: no value on success, whatever the
      body. */
  function Delete(res: Response): (r: Outcome<()>)
    ensures r == Done(()) <==> res.Success?
    ensures res.Failure? ==> r == Throws(UserError(ErrorMessage(res.errorData, DeleteFallback)))
  {
    Rethrow(Settle(res), DeleteFallback)
  }

  // ---------------------------------------------------------------------
  // Properties of the response normalisation

  /** A bare student: an object without a usable `etudiant` key. */
  predicate IsBare(e: JsValue) {
    e.Obj? && IsNullish(Prop(e, "etudiant"))
  }

  function Envelope(message: JsValue, e: JsValue): JsValue {
    Obj(map["message" := message, "etudiant" := e])
  }

  /** The envelope is transparent: `{message, etudiant: E}` and the bare `E`
      give the same student on `create` and on `update`. */
  lemma {:induction false} EnvelopeTransparency(id: int, data: Etudiant, message: JsValue, e: JsValue)
    requires IsBare(e)
    ensures Create(data, Success(Envelope(message, e))) == Create(data, Success(e))
    ensures Update(id, data, Success(Envelope(message, e))) == Update(id, data, Success(e))
  {
  }

  /** The track tiers on `create`: an embedded truthy track wins, then a stub
      from a truthy foreign key, then the caller's track (or null). */
  lemma {:induction false} CreateTrackTiers(data: Etudiant, body: JsValue)
    requires !IsNullish(body)
    ensures var e, s := Unwrap(body), Create(data, Success(body)).value;
      && (IsTruthy(Prop(e, "parcours")) ==> s.parcours == Prop(e, "parcours"))
      && (!IsTruthy(Prop(e, "parcours")) && IsTruthy(Prop(e, "parcours_id")) ==>
            s.parcours == Stub(Prop(e, "parcours_id")) && ForeignKey(s.parcours) == Prop(e, "parcours_id"))
      && (!IsTruthy(Prop(e, "parcours")) && !IsTruthy(Prop(e, "parcours_id")) ==>
            s.parcours == Coalesce(data.parcours, Null))
  {
  }

  /** The same track rule on every read path: `create` and `update` resolve
      the track identically, and `list` does too when there is no caller
      track to fall back on. */
  lemma {:induction false} SameTrackRule(id: int, data: Etudiant, e: JsValue)
    requires IsBare(e)
    ensures Create(data, Success(e)).value.parcours == Update(id, data, Success(e)).value.parcours
    ensures IsNullish(data.parcours) ==>
      List(Success(Arr([e]))).value[0].parcours == Create(data, Success(e)).value.parcours
  {
  }

  /** A foreign key of 0 is falsy, so it is treated as absent: `list` gives
      no track and `create` keeps the caller's, while the payload's `??`
      sends a track whose `ID` is 0 as the key 0. */
  lemma {:induction false} ZeroForeignKeyIsAbsent(data: Etudiant, e: JsValue)
    requires IsBare(e) && !IsTruthy(Prop(e, "parcours")) && Prop(e, "parcours_id") == Num(0)
    ensures List(Success(Arr([e]))).value[0].parcours == Null
    ensures Create(data, Success(e)).value.parcours == Coalesce(data.parcours, Null)
    ensures ForeignKey(Stub(Num(0))) == Num(0)
  {
  }

  /** `update` never regresses a field: a nullish field of the response is
      replaced by `id` or the caller's value, so a field the caller knew is
      still known afterwards, and so is the caller's track. */
  lemma {:induction false} UpdateNeverRegresses(id: int, data: Etudiant, body: JsValue)
    requires !IsNullish(body)
    ensures var e, s := Unwrap(body), Update(id, data, Success(body)).value;
      && (IsNullish(Prop(e, "ID")) ==> s.ID == Num(id))
      && (IsNullish(Prop(e, "nom")) ==> s.nom == data.nom)
      && (IsNullish(Prop(e, "prenom")) ==> s.prenom == data.prenom)
      && (IsNullish(Prop(e, "email")) ==> s.email == data.email)
      && (!IsNullish(data.nom) ==> !IsNullish(s.nom))
      && (!IsNullish(data.prenom) ==> !IsNullish(s.prenom))
      && (!IsNullish(data.email) ==> !IsNullish(s.email))
      && (!IsNullish(data.parcours) ==> !IsNullish(s.parcours))
  {
  }

  /** The envelope test is `??`, not `||`: a falsy `etudiant` such as `0`
      is still taken as the student, so the fields of the surrounding body
      are not read. */
  lemma {:induction false} FalsyEnvelopeIsTaken(data: Etudiant)
    ensures var body := Obj(map["etudiant" := Num(0), "ID" := Num(5), "nom" := Str("A")]);
      && Unwrap(body) == Num(0)
      && Create(data, Success(body)).value.ID == Undefined
      && Create(data, Success(body)).value.nom == Undefined
  {
  }

  /** `create` does no back-fill: a field the response leaves null or
      undefined stays so on `create`, where `update` takes `id` or the
      caller's value instead. */
  lemma {:induction false} CreateDoesNotBackfill(id: int, data: Etudiant, body: JsValue)
    requires !IsNullish(body)
    ensures var e, c, u := Unwrap(body), Create(data, Success(body)).value, Update(id, data, Success(body)).value;
      && (IsNullish(Prop(e, "ID")) ==> IsNullish(c.ID) && u.ID == Num(id))
      && (IsNullish(Prop(e, "nom")) ==> c.nom == Prop(e, "nom") && u.nom == data.nom)
      && (IsNullish(Prop(e, "prenom")) ==> c.prenom == Prop(e, "prenom") && u.prenom == data.prenom)
      && (IsNullish(Prop(e, "email")) ==> c.email == Prop(e, "email") && u.email == data.email)
  {
  }

  /** What a backend that stores the payload and echoes it with a new `ID`
      would return. */
  function Echo(data: Etudiant, newId: int): JsValue {
    Obj(ToJson(data).fields["ID" := Num(newId)])
  }

  /** Round trip through the wire: serialising a student, echoing the payload
      with an `ID`, and mapping the response gives a student with that `ID`
      that serialises exactly as the original, on `create` and on `update`. */
  lemma {:induction false} WireRoundTrip(id: int, data: Etudiant, newId: int)
    ensures Create(data, Success(Echo(data, newId))).Done?
    ensures var s := Create(data, Success(Echo(data, newId))).value;
      s.ID == Num(newId) && ToJson(s) == ToJson(data)
    ensures var s := Update(id, data, Success(Echo(data, newId))).value;
      s.ID == Num(newId) && ToJson(s) == ToJson(data)
  {
  }
}
