/**
 * The student entity and its wire serialisation. The fields hold whatever
 * the data-access object passes in (the declared types say number, string,
 * track or null, but a response may leave a field undefined), so each is a
 * JsValue; a track is any value read as an object with an optional `ID`.
 */
module EtudiantEntity {
  import opened Js

  /** `new Etudiant(ID, nom, prenom, email, parcours)` stores its five
      arguments, in order, in the five fields. */
  datatype Etudiant = Etudiant(ID: JsValue, nom: JsValue, prenom: JsValue, email: JsValue, parcours: JsValue)

  /** The keys of the payload the backend accepts for a student. */
  const WireKeys: set<string> := {"nom", "prenom", "email", "parcours_id"}

  /** `parcours?.ID ?? null`: the track sent as a foreign key. */
  function ForeignKey(parcours: JsValue): (k: JsValue)
    ensures k != Undefined
    ensures k == Null <==> IsNullish(parcours) || IsNullish(Prop(parcours, "ID"))
    ensures k != Null ==> k == Prop(parcours, "ID")
  {
    Coalesce(OptProp(parcours, "ID"), Null)
  }

  /** A minimal track `{ID: id}`, built when a response carries only the
      foreign key. */
  function Stub(id: JsValue): JsValue {
    Obj(map["ID" := id])
  }

  /** `toJSON()`: exactly the four accepted keys, the names copied verbatim
      (null and undefined included), the track as its foreign key, and no
      `ID`. */
  function ToJson(s: Etudiant): (j: JsValue)
    ensures j.Obj? && j.fields.Keys == WireKeys && "ID" !in j.fields
    ensures j.fields["nom"] == s.nom && j.fields["prenom"] == s.prenom && j.fields["email"] == s.email
    ensures j.fields["parcours_id"] == ForeignKey(s.parcours)
  {
    Obj(map["nom" := s.nom, "prenom" := s.prenom, "email" := s.email, "parcours_id" := ForeignKey(s.parcours)])
  }

  /** The student's own `ID` never reaches the payload: two students that
      differ only in `ID` serialise identically. */
  lemma {:induction false} ToJsonIgnoresId(s: Etudiant, id: JsValue)
    ensures ToJson(s.(ID := id)) == ToJson(s)
  {
  }

  /** A stub built from a present foreign key serialises back to that key. */
  lemma {:induction false} StubRoundTrip(id: JsValue)
    requires !IsNullish(id)
    ensures ForeignKey(Stub(id)) == id
  {
  }

  /** Serialisation loses only the `ID` and whatever of the track is not its
      `ID`: equal payloads mean equal names and equal foreign keys. */
  lemma {:induction false} ToJsonInjective(s: Etudiant, t: Etudiant)
    requires ToJson(s) == ToJson(t)
    ensures s.nom == t.nom && s.prenom == t.prenom && s.email == t.email
    ensures ForeignKey(s.parcours) == ForeignKey(t.parcours)
  {
  }
}
