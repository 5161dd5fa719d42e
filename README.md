# Response normalisation of the course-management front end

This project models the data-access objects of a browser front end for a
course and enrolment system. The system has students (`Etudiant`), tracks
(`Parcours`) and course units (`UE`). Each data-access object sends one HTTP
request and then decides for itself:

- how it reads the response body: the `{message, etudiant}` envelope or a bare
  object; an embedded track, a foreign key, or the caller's track;
- which fields an update fills in from the caller;
- what a student looks like on the wire;
- which message it throws on failure: the backend `error`, then the backend
  `message`, then a fixed French fallback.

Those decisions are modelled here as Dafny functions over response values.
The `Parcours` cache is modelled as a class with methods.

The model keeps two kinds of "absent" apart:

- `??` and `?.` test nullishness (null or undefined).
- `||` and the conditional operator test truthiness, which is ToBoolean in
  section 7.1.2 of ECMA-262.

A foreign key of `0` or an empty-string `error` is therefore present for `??`
but absent for `||`.

The modules are:

- `Js` (js.dfy): JavaScript values (`JsValue`), with `IsNullish`,
  `IsTruthy`, the property reads `Prop` (`v.k`) and `OptProp` (`v?.k`), and the
  operators `Coalesce` (`??`) and `Or` (`||`).
- `Failures` (failures.dfy): the settled HTTP call `Response` (`Success(data)`
  or `Failure(errorData)`, where `errorData` is `error.response.data`) and what
  an operation throws (`Thrown`). An error is either `UserError` (a
  `new Error(msg)`), `TransportError` (the rejected call, passed on unchanged)
  or `TypeError` (a property read on null or undefined). This module also holds
  the settled promise `Outcome`, `Array.prototype.map` with a callback that may
  throw (`TryMap`), the message selection (`ErrorMessage`) and the shared
  `catch` block (`Rethrow`).
- `EtudiantEntity` (etudiant.dfy): the student record and `toJSON`.
- `EtudiantsDao`, `ParcoursDao` and `UeDao`: one module per data-access
  object. In `ParcoursDao`, the class `ParcoursDAO` holds the cache. Its
  `findIndex` is a loop (`FindIndex`), proved equal to the reference scan
  `FirstHit`.

Each operation that sends a request takes the settled call as an input and
returns the settled promise as an `Outcome`. The exceptions are the track
`get` and `update` (`ParcoursDao.Get`, `ParcoursDao.Update`): they send no
request and cannot fail, so they return a plain value.

Facts about the code that the model follows:

- Not every mutating operation translates failures. `UeDAO.create` and
  `setParcoursForUe` let the raw transport failure through, and so does a
  failing `getInscrits`.
- An embedded track or a `parcours_id` in a student response is used only when
  it is truthy. A falsy `parcours` or `parcours_id`, such as `0` or `""`, counts
  as absent.
- When `ParcoursDAO.create` and `ParcoursDAO.list` fail, they ignore the
  backend's error body and throw fixed messages instead of the
  `error`/`message`/fallback selection. On success both hand back the response
  body.
- Some operations turn an unreadable successful response into their fixed
  fallback message, because the failed read happens inside their `try` block.
  These are the student `create` and `update` and the unit `update` on a null
  body, and the track `delete` on a non-array cache or a null element before
  the match. The unit `create` has no `try` block, so a null body there
  escapes as a TypeError. The student and unit `delete` read no response.

## Model

| member | source | states |
|---|---|---|
| `Failures.TryMap` | src/domain/daos/EtudiantsDAO.ts:21-28 | `map` succeeds exactly when the callback succeeds on every element; the result has the input's length and order, element i being the callback's value on element i; otherwise the exception of the first failing element escapes |
| `Failures.ErrorMessage` | src/domain/daos/EtudiantsDAO.ts:53-56 | the thrown message is the backend `error`, the backend `message` or the fallback, and is truthy whenever the fallback is non-empty |
| `Failures.ErrorMessagePriority` | src/domain/daos/EtudiantsDAO.ts:86-89 | the message is the first truthy of `error`, `message`, else the fallback |
| `Failures.FirstTruthyUnique` | src/domain/daos/EtudiantsDAO.ts:98-101 | the priority order determines the message: two selections that both satisfy it are equal |
| `Failures.ErrorMessageExamples` | src/domain/daos/ParcoursDAO.ts:45-48 | an empty-string `error` falls through to `message`; `{error: "X"}` yields exactly "X"; `error` wins over `message`; no response yields the fallback |
| `Failures.Rethrow` | src/domain/daos/EtudiantsDAO.ts:52-58 | a normal result passes unchanged; any exception becomes an Error with a truthy message; a TypeError, which has no response, yields exactly the fallback |
| `EtudiantEntity.ForeignKey` | src/domain/entities/Etudiant.ts:27 | `parcours_id` is never undefined; it is null exactly when the track or its `ID` is nullish, and the track's `ID` otherwise (a falsy `ID` such as 0 included) |
| `EtudiantEntity.ToJson` | src/domain/entities/Etudiant.ts:22-29 | the payload has exactly the keys `nom`, `prenom`, `email`, `parcours_id`, never `ID`; the names are copied verbatim (null and undefined too), the track sent as its foreign key |
| `EtudiantEntity.ToJsonIgnoresId` | src/domain/entities/Etudiant.ts:22-29 | changing the student's `ID` does not change its payload |
| `EtudiantEntity.StubRoundTrip` | src/domain/entities/Etudiant.ts:27 | a stub `{ID: k}` built from a present key serialises back to `k` |
| `EtudiantEntity.ToJsonInjective` | src/domain/entities/Etudiant.ts:23-28 | equal payloads mean equal names, emails and foreign keys |
| `EtudiantsDao.Unwrap` | src/domain/daos/EtudiantsDAO.ts:44 | the student is `body.etudiant` whenever that is not null or undefined (a falsy `0`, `""` or `false` included), and the whole body otherwise; it is nullish exactly when the body is |
| `EtudiantsDao.FalsyEnvelopeIsTaken` | src/domain/daos/EtudiantsDAO.ts:44 | a body `{etudiant: 0, ID: 5, nom: "A"}` unwraps to `0`, so `create` returns a student with undefined `ID` and `nom` rather than reading 5 and "A" |
| `EtudiantsDao.ResolveParcours` | src/domain/daos/EtudiantsDAO.ts:22-25 | the track of a read-back student: a truthy embedded `parcours` wins; otherwise a truthy `parcours_id` gives the stub `{ID: parcours_id}`, whose foreign key is that id; otherwise the given default (null on `list`, the caller's track on `create`/`update`) |
| `EtudiantsDao.FromListed` | src/domain/daos/EtudiantsDAO.ts:21-27 | mapping an element succeeds exactly when it is not null or undefined, and otherwise throws a TypeError; the student takes the element's `ID`, `nom`, `prenom` and `email` as they are, and its track by the three-tier rule with no default |
| `EtudiantsDao.List` | src/domain/daos/EtudiantsDAO.ts:19-29 | transport failures propagate raw; the result is defined exactly for an array of readable elements, has its length and order, and maps element i with the `list` rule; otherwise a TypeError |
| `EtudiantsDao.Payload` | src/domain/daos/EtudiantsDAO.ts:34-39 | the POST/PUT body has exactly the keys `nom`, `prenom`, `email`, `parcours_id`, never `ID`; the names are the caller's, the track its foreign key |
| `EtudiantsDao.PayloadIsToJson` | src/domain/daos/EtudiantsDAO.ts:34-39 | the POST/PUT body equals `Etudiant.toJSON` and has exactly its four keys |
| `EtudiantsDao.Create` | src/domain/daos/EtudiantsDAO.ts:31-59 | a student is returned exactly when the call succeeded with a non-nullish body; a failure throws the selected message with the "créer" fallback; a null body throws the fallback; every throw carries a truthy message; the returned student's `ID`, `nom`, `prenom` and `email` are the unwrapped response's, nullish included, and its track follows the three-tier rule with the caller's track as default |
| `EtudiantsDao.Update` | src/domain/daos/EtudiantsDAO.ts:61-92 | as for `create` with the "modifier" fallback; the returned student always has an `ID`; each of `ID`, `nom`, `prenom`, `email` is the unwrapped response's whenever that is non-nullish; the track follows the same three-tier rule as `create` |
| `EtudiantsDao.Delete` | src/domain/daos/EtudiantsDAO.ts:94-104 | resolves with no value exactly when the transport succeeds; otherwise throws the selected message with the "supprimer l'étudiant" fallback |
| `EtudiantsDao.EnvelopeTransparency` | src/domain/daos/EtudiantsDAO.ts:74 | for a bare student `E`, the body `{message, etudiant: E}` and the body `E` give the same outcome on `create` and on `update` |
| `EtudiantsDao.CreateTrackTiers` | src/domain/daos/EtudiantsDAO.ts:46-49 | a truthy embedded track wins; otherwise a truthy `parcours_id` gives the stub `{ID: parcours_id}`, whose foreign key is that id; otherwise the caller's track, or null |
| `EtudiantsDao.SameTrackRule` | src/domain/daos/EtudiantsDAO.ts:76-79 | `create` and `update` resolve the track identically, and `list` agrees with them when the caller has no track |
| `EtudiantsDao.ZeroForeignKeyIsAbsent` | src/domain/daos/EtudiantsDAO.ts:22-25 | `parcours_id: 0` without an embedded track gives no track on `list` and the caller's track on `create`, although the payload's `??` sends a track with `ID` 0 as the key 0 |
| `EtudiantsDao.UpdateNeverRegresses` | src/domain/daos/EtudiantsDAO.ts:81 | a nullish `ID`/`nom`/`prenom`/`email` in the response is replaced by `id` or the caller's value, and a field or track the caller had is never lost |
| `EtudiantsDao.CreateDoesNotBackfill` | src/domain/daos/EtudiantsDAO.ts:51 | for every readable response body: a nullish `ID`, `nom`, `prenom` or `email` in it stays nullish on `create`, where `update` takes `id` or the caller's value |
| `EtudiantsDao.WireRoundTrip` | src/domain/daos/EtudiantsDAO.ts:41-51 | serialising a student, echoing the payload with a new `ID` and mapping the response gives that `ID` and the original payload, on `create` and `update` |
| `ParcoursDao.Create` | src/domain/daos/ParcoursDAO.ts:20-27 | the response body is returned unmapped exactly when the call succeeds; any failure throws "Impossible de créer le nouveau parcours" |
| `ParcoursDao.CreateIgnoresBackendError` | src/domain/daos/ParcoursDAO.ts:24-25 | the thrown message does not depend on the backend body: `{error: "X"}` still yields the fixed message |
| `ParcoursDao.Get` | src/domain/daos/ParcoursDAO.ts:29-32 | returns a record whose `ID` is the requested id |
| `ParcoursDao.Update` | src/domain/daos/ParcoursDAO.ts:34-37 | returns `data` unchanged |
| `ParcoursDao.GetInscrits` | src/domain/daos/ParcoursDAO.ts:63-67 | `inscrits` is returned unchanged when non-nullish, `[]` otherwise, never nullish; a transport failure propagates raw |
| `ParcoursDao.GetInscritsExamples` | src/domain/daos/ParcoursDAO.ts:66 | `{..., inscrits: L}` gives `L`, a body without `inscrits` or a null body gives `[]` |
| `ParcoursDao.FirstHit` | src/domain/daos/ParcoursDAO.ts:42 | the scan stops at the first element whose `ID` is `id`, or at the first null element (whose `ID` read throws), or at the end, every earlier element being readable and different |
| `ParcoursDao.FirstHitUnique` | src/domain/daos/ParcoursDAO.ts:42 | that characterisation admits one stopping point only |
| `ParcoursDao.FindIndex` | src/domain/daos/ParcoursDAO.ts:42 | the element-by-element `findIndex` loop returns exactly the reference scan's stopping point |
| `ParcoursDao.RemoveAt` | src/domain/daos/ParcoursDAO.ts:43 | `splice(i, 1)`: one element shorter, the elements before `i` unchanged, the ones after shifted down by one in order |
| `ParcoursDao.RemoveFirstMatching` | src/domain/daos/ParcoursDAO.ts:43 | `splice` at the first match removes that element only: one element shorter, earlier elements unchanged (none matching), later ones shifted in order, the multiset less that element, one fewer element carrying `id` |
| `ParcoursDao.NotFoundMeansNoneMatch` | src/domain/daos/ParcoursDAO.ts:42-43 | when the scan finds nothing, no cached element carries `id` |
| `ParcoursDao.ParcoursDAO.constructor` | src/domain/daos/ParcoursDAO.ts:8 | the cache starts as the empty array |
| `ParcoursDao.ParcoursDAO.List` | src/domain/daos/ParcoursDAO.ts:53-61 | on success the cache becomes the response body, which is also returned; on failure the cache is untouched and "Impossible de récupérer les parcours" is thrown |
| `ParcoursDao.ParcoursDAO.Delete` | src/domain/daos/ParcoursDAO.ts:39-51 | a failed call leaves the cache and throws the selected message; after a successful call the first element carrying `id` is removed, nothing changes when none does, and a non-array cache or a null element before any match leaves the cache and throws the fallback |
| `UeDao.FromBody` | src/domain/daos/UeDAO.ts:18 | `ID`, `Intitule`, `NumeroUe` copied from the body; `Parcours` kept when non-nullish (an empty list too) and `[]` otherwise, so never nullish; a nullish body throws a TypeError |
| `UeDao.List` | src/domain/daos/UeDAO.ts:15-20 | transport failures propagate raw; for an array of readable elements the result has its length and order, element i mapped by the unit rule |
| `UeDao.Get` | src/domain/daos/UeDAO.ts:22-35 | `get` and `create` map the body itself and propagate a transport failure raw |
| `UeDao.Update` | src/domain/daos/UeDAO.ts:37-48 | a readable body is mapped as by `get`; a failure throws the selected message with the "modifier l'UE" fallback; a null body throws the fallback |
| `UeDao.Delete` | src/domain/daos/UeDAO.ts:50-56 | resolves with no value exactly when the transport succeeds; otherwise the selected message with the "supprimer l'UE" fallback |
| `UeDao.ParcoursIdsBody` | src/domain/daos/UeDAO.ts:66 | the request body of `setParcoursForUe` has the single key `parcoursIds`, an array of the given ids, same length, same order |
| `UeDao.ParcoursIdsRoundTrip` | src/domain/daos/UeDAO.ts:66 | the array under `parcoursIds` in the request body reads back as exactly the given ids, in order |
| `Failures.Settle` | src/domain/daos/UeDAO.ts:65-67 | `setParcoursForUe` (and the awaited call inside each `delete`) resolves with no value exactly when the call succeeds, and otherwise propagates the transport failure raw |
| `UeDao.NoEnvelopeUnwrap` | src/domain/daos/UeDAO.ts:24 | a body `{message, ue}` is not unwrapped: its unit has undefined fields and an empty track list |

## Left out

- The HTTP client, the promise sequencing and the URLs: each call is an input `Response`. The raw exception of a failed call is represented by its response body only. The base URL is environment configuration and is not modelled.
- `console.error` in `update`: it is diagnostics only.
- The lazy singletons (`getInstance`) and the unused `idCounter` field of the track data-access object.
- `getParcoursForUe`: it is an unchecked cast of the response, with nothing to state.
- `UE.toJSON`, the `UE` constructor and the `Parcours` entity: `UE.ts` and `Parcours.ts` are not part of this model. `UE` is taken to store its four arguments. A track is any value, read for its `ID`. The request bodies of the unit `create`/`update` and the track `create` are not modelled.
- The route table in `src/router/index.ts`: it is view wiring.
- Numbers are integers. NaN, -0 and fractions are not modelled.
- `new Error(msg)` converts a non-string `msg` to a string. The model keeps the selected value itself as the message.
- `JSON.stringify` drops keys whose value is undefined. Payloads are modelled as the object literals built in the code, before that step.
- Aliasing: `ParcoursDAO.list` returns the cached array itself, and `delete` splices that same array, so a caller holding the result sees the removal. The cache is a value field here, so this sharing is not modelled.
- Property reads on primitives return undefined for every key the code reads. The built-in members of strings and arrays (`length`, or an own `map`) are not modelled, and a non-array body calling `.map`/`.findIndex` is a TypeError.
