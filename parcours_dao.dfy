/**
 * The track data-access object. It is the one data-access object with state:
 * the array cached by `list` (which stores whatever the response carried)
 * and edited in place by a successful `delete`. The cache is a field of the
 * class; the operations that do not touch it are functions.
 */
module ParcoursDao {
  import opened Js
  import opened Failures

  const CreateFallback: string := "Impossible de créer le nouveau parcours"
  const DeleteFallback: string := "Impossible de supprimer le parcours"
  const ListFallback: string := "Impossible de récupérer les parcours"

  /** `create(data)` given the settled POST: the body is returned unmapped,
      and a failure always throws the same message, whatever the backend
      said. */
  function Create(data: JsValue, res: Response): (r: Outcome<JsValue>)
    ensures r.Done? <==> res.Success?
    ensures r.Done? ==> r.value == res.data
    ensures r.Throws? ==> r.thrown == UserError(Str(CreateFallback))
  {
    match res
    case Success(d) => Done(d)
    case Failure(_) => Throws(UserError(Str(CreateFallback)))
  }

  /** Unlike the other data-access objects, `create` ignores a backend
      `error`: the same failure yields the fixed message here and the
      backend's message under the usual selection. */
  lemma {:induction false} CreateIgnoresBackendError(data: JsValue, errorData: JsValue)
    ensures Create(data, Failure(errorData)) == Create(data, Failure(Undefined))
    ensures Create(data, Failure(Obj(map["error" := Str("X")]))).thrown.message == Str(CreateFallback)
    ensures ErrorMessage(Obj(map["error" := Str("X")]), CreateFallback) == Str("X")
  {
  }

  /** `get(id)`: a fixed record, not fetched from the backend, carrying the
      requested `ID`. */
  function Get(id: int): (p: JsValue)
    ensures p.Obj? && Prop(p, "ID") == Num(id)
  {
    Obj(map["ID" := Num(id), "NomParcours" := Str("Parcours 1"), "AnneeFormation" := Num(2024)])
  }

  /** `update(id, data)`: no request; `data` comes back as given. */
  function Update(id: int, data: JsValue): (p: JsValue)
    ensures p == data
  {
    data
  }

  /** `getInscrits(parcoursId)` given the settled GET:
      `res.data?.inscrits ?? []`, with the transport failure propagated. */
  function GetInscrits(res: Response): (r: Outcome<JsValue>)
    ensures res.Failure? ==> r == Throws(TransportError(res.errorData))
    ensures r.Done? <==> res.Success?
    ensures r.Done? ==> !IsNullish(r.value)
    ensures r.Done? && !IsNullish(OptProp(res.data, "inscrits")) ==> r.value == OptProp(res.data, "inscrits")
    ensures r.Done? && IsNullish(OptProp(res.data, "inscrits")) ==> r.value == Arr([])
  {
    match res
    case Failure(d) => Throws(TransportError(d))
    case Success(d) => Done(Coalesce(OptProp(d, "inscrits"), Arr([])))
  }

  /** The enrolment list comes back unchanged, even when empty, and a body
      without `inscrits` (or no body) gives the empty list. */
  lemma {:induction false} GetInscritsExamples(track: map<string, JsValue>, students: seq<JsValue>)
    requires "inscrits" !in track
    ensures GetInscrits(Success(Obj(track["inscrits" := Arr(students)]))) == Done(Arr(students))
    ensures GetInscrits(Success(Obj(track))) == Done(Arr([]))
    ensures GetInscrits(Success(Null)) == Done(Arr([]))
  {
  }

  // ---------------------------------------------------------------------
  // `findIndex(p => p.ID === id)` and `splice(index, 1)`

  /** The callback `p => p.ID === id` on an element it can read. */
  predicate Matches(p: JsValue, id: int) {
    !IsNullish(p) && Prop(p, "ID") == Num(id)
  }

  /** How the scan stops: at the first element carrying `id`, at the first
      null or undefined element (whose `ID` read throws), or at the end. */
  datatype Search = Found(index: nat) | HitNullish(index: nat) | NotFound

  /** The elements before `n` were read and none carries `id`. */
  ghost predicate PassedOver(items: seq<JsValue>, id: int, n: nat)
    requires n <= |items|
  {
    forall j :: 0 <= j < n ==> !IsNullish(items[j]) && !Matches(items[j], id)
  }

  ghost predicate IsFirstHit(items: seq<JsValue>, id: int, s: Search) {
    match s
    case Found(i) => i < |items| && Matches(items[i], id) && PassedOver(items, id, i)
    case HitNullish(i) => i < |items| && IsNullish(items[i]) && PassedOver(items, id, i)
    case NotFound => PassedOver(items, id, |items|)
  }

  /** The reference scan. */
  function FirstHit(items: seq<JsValue>, id: int): (s: Search)
    ensures IsFirstHit(items, id, s)
  {
    if items == [] then NotFound
    else if IsNullish(items[0]) then HitNullish(0)
    else if Matches(items[0], id) then Found(0)
    else
      var rest := FirstHit(items[1..], id);
      assert forall j :: 1 <= j <= |items[1..]| ==> items[1..][j - 1] == items[j];
      match rest
      case Found(i) => Found(i + 1)
      case HitNullish(i) => HitNullish(i + 1)
      case NotFound => NotFound
  }

  /** At most one way for a scan to stop. */
  lemma {:induction false} FirstHitUnique(items: seq<JsValue>, id: int, s1: Search, s2: Search)
    requires IsFirstHit(items, id, s1) && IsFirstHit(items, id, s2)
    ensures s1 == s2
  {
  }

  /** `findIndex(p => p.ID === id)`, element by element. */
  method FindIndex(items: seq<JsValue>, id: int) returns (s: Search)
    ensures s == FirstHit(items, id)
  {
    var i := 0;
    while i < |items|
      invariant 0 <= i <= |items|
      invariant PassedOver(items, id, i)
    {
      if IsNullish(items[i]) {
        s := HitNullish(i);
        FirstHitUnique(items, id, s, FirstHit(items, id));
        return;
      }
      if Prop(items[i], "ID") == Num(id) {
        s := Found(i);
        FirstHitUnique(items, id, s, FirstHit(items, id));
        return;
      }
      i := i + 1;
    }
    s := NotFound;
    FirstHitUnique(items, id, s, FirstHit(items, id));
  }

  /** `splice(i, 1)` */
  function RemoveAt(items: seq<JsValue>, i: nat): (r: seq<JsValue>)
    requires i < |items|
    ensures |r| == |items| - 1
    ensures forall k :: 0 <= k < i ==> r[k] == items[k]
    ensures forall k :: i <= k < |r| ==> r[k] == items[k + 1]
  {
    items[..i] + items[i + 1..]
  }

  /** The number of elements carrying `id`. */
  function CountMatching(items: seq<JsValue>, id: int): nat {
    if items == [] then 0
    else (if Matches(items[0], id) then 1 else 0) + CountMatching(items[1..], id)
  }

  lemma {:induction false} CountMatchingAppend(a: seq<JsValue>, b: seq<JsValue>, id: int)
    ensures CountMatching(a + b, id) == CountMatching(a, id) + CountMatching(b, id)
  {
    if a != [] {
      assert (a + b)[1..] == a[1..] + b;
      CountMatchingAppend(a[1..], b, id);
    } else {
      assert a + b == b;
    }
  }

  /** What a successful `delete` does to a cached array: it removes the
      first element carrying `id` and only that one, and keeps the others
      in their order. */
  lemma {:induction false} RemoveFirstMatching(items: seq<JsValue>, id: int, i: nat)
    requires FirstHit(items, id) == Found(i)
    ensures |RemoveAt(items, i)| == |items| - 1
    ensures forall k :: 0 <= k < i ==> RemoveAt(items, i)[k] == items[k] && !Matches(items[k], id)
    ensures forall k :: i <= k < |items| - 1 ==> RemoveAt(items, i)[k] == items[k + 1]
    ensures multiset(RemoveAt(items, i)) + multiset{items[i]} == multiset(items)
    ensures CountMatching(RemoveAt(items, i), id) == CountMatching(items, id) - 1
  {
    assert items == items[..i] + [items[i]] + items[i + 1..];
    CountMatchingAppend(items[..i] + [items[i]], items[i + 1..], id);
    CountMatchingAppend(items[..i], [items[i]], id);
    CountMatchingAppend(items[..i], items[i + 1..], id);
    assert [items[i]][1..] == [];
  }

  /** A scan that reaches the end means that no cached element carries
      `id`. */
  lemma {:induction false} NotFoundMeansNoneMatch(items: seq<JsValue>, id: int)
    requires FirstHit(items, id) == NotFound
    ensures CountMatching(items, id) == 0
  {
    if items != [] {
      assert !Matches(items[0], id);
      assert forall j :: 1 <= j <= |items[1..]| ==> items[1..][j - 1] == items[j];
      FirstHitUnique(items[1..], id, FirstHit(items[1..], id), NotFound);
      NotFoundMeansNoneMatch(items[1..], id);
    }
  }

  class ParcoursDAO {
    /** `private parcours`: what the last successful `list` returned. */
    var cache: JsValue

    constructor ()
      ensures cache == Arr([])
    {
      cache := Arr([]);
    }

    /** `list()` given the settled GET: the response body replaces the cache
        and is returned; a failure leaves the cache alone. */
    method List(res: Response) returns (r: Outcome<JsValue>)
      modifies this
      ensures res.Success? ==> cache == res.data && r == Done(cache)
      ensures res.Failure? ==> cache == old(cache) && r == Throws(UserError(Str(ListFallback)))
    {
      match res {
        case Success(d) =>
          cache := d;
          r := Done(cache);
        case Failure(_) =>
          r := Throws(UserError(Str(ListFallback)));
      }
    }

    /** `delete(id)` given the settled DELETE. After a successful call the
        first cached element carrying `id` is removed; reading the `ID` of a
        null element, or a cache that is not an array, throws inside the
        `try` and becomes the fallback message. */
    method Delete(id: int, res: Response) returns (r: Outcome<()>)
      modifies this
      ensures res.Failure? ==>
        cache == old(cache) && r == Throws(UserError(ErrorMessage(res.errorData, DeleteFallback)))
      ensures res.Success? && !old(cache).Arr? ==>
        cache == old(cache) && r == Throws(UserError(Str(DeleteFallback)))
      ensures res.Success? && old(cache).Arr? ==>
        match FirstHit(old(cache).items, id)
        case Found(i) => cache == Arr(RemoveAt(old(cache).items, i)) && r == Done(())
        case NotFound => cache == old(cache) && r == Done(())
        case HitNullish(_) => cache == old(cache) && r == Throws(UserError(Str(DeleteFallback)))
    {
      var attempt: Outcome<()>;
      match res {
        case Failure(d) =>
          attempt := Throws(TransportError(d));
        case Success(_) =>
          if !cache.Arr? {
            attempt := Throws(TypeError);
          } else {
            var s := FindIndex(cache.items, id);
            match s {
              case Found(i) =>
                cache := Arr(RemoveAt(cache.items, i));
                attempt := Done(());
              case NotFound =>
                attempt := Done(());
              case HitNullish(_) =>
                attempt := Throws(TypeError);
            }
          }
      }
      r := Rethrow(attempt, DeleteFallback);
    }
  }
}
