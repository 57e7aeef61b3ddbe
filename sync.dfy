/**
 * The rules by which the pages bring their local plant collection in line
 * with the API's answers: a full refetch, a replacement or a shallow merge
 * by identifier, a removal, and the "merged or refetch" outcome of the
 * water and fertilize actions.
 */
module Sync {
  import opened Wrappers
  import opened Plants

  /** What `GET /api/plants` gave: a failure (transport, non-2xx or unreadable JSON) or a JSON body. */
  datatype ListReply = ListFailed | ListOk(body: ListBody)
  datatype ListBody = NotAList | PlantList(plants: seq<Plant>)

  /**
   * What an action endpoint gave: either nothing readable (the request or
   * `res.json()` threw, with that error's message), or a status and a body
   * with an `error` text ("" when absent) and an optional `plant`.
   */
  datatype ActionReply =
    | Unreadable(message: string)
    | Reply(ok: bool, error: string, plant: Option<Plant>)

  /** The message `fetchPlants` shows when loading fails. */
  const LoadError: string := "No se pudieron cargar tus plantas."

  /** The collection after `fetchPlants`: kept on failure, `[]` for a non-array body. */
  function Fetched(previous: seq<Plant>, reply: ListReply): (r: seq<Plant>)
    ensures reply.ListFailed? ==> r == previous
    ensures reply == ListOk(NotAList) ==> r == []
    ensures reply.ListOk? && reply.body.PlantList? ==> r == reply.body.plants
  {
    match reply
    case ListFailed => previous
    case ListOk(NotAList) => []
    case ListOk(PlantList(ps)) => ps
  }

  /** The error banner after `fetchPlants`. */
  function FetchError(reply: ListReply): (r: string)
    ensures r == "" <==> reply.ListOk?
  {
    if reply.ListFailed? then LoadError else ""
  }

  /**
   * `prev.map(x => x._id === id ? p : x)`: every element whose identifier
   * equals `id` becomes `p`; the others, their order and the length stay.
   */
  function ReplaceById(plants: seq<Plant>, id: Option<string>, p: Plant): (r: seq<Plant>)
    ensures |r| == |plants|
    ensures forall i :: 0 <= i < |plants| && plants[i].id == id ==> r[i] == p
    ensures forall i :: 0 <= i < |plants| && plants[i].id != id ==> r[i] == plants[i]
  {
    if plants == [] then []
    else [if plants[0].id == id then p else plants[0]] + ReplaceById(plants[1..], id, p)
  }

  /** Replacing an identifier that no element carries changes nothing. */
  lemma ReplaceAbsent(plants: seq<Plant>, id: Option<string>, p: Plant)
    requires forall q :: q in plants ==> q.id != id
    ensures ReplaceById(plants, id, p) == plants
  {
    var r := ReplaceById(plants, id, p);
    forall i | 0 <= i < |plants| ensures r[i] == plants[i] {
      assert plants[i] in plants;
    }
  }

  /** `{ ...p, ...patch }`, field by field: the patch wins where it has a value. */
  function Pick<T>(kept: Option<T>, sent: Option<T>): Option<T> {
    if sent.Some? then sent else kept
  }

  /** The shallow merge `{ ...p, ...patch }` of two plant records. */
  function Merge(p: Plant, patch: Plant): (r: Plant)
    ensures patch.id.Some? ==> r.id == patch.id
    ensures patch.id.None? ==> r.id == p.id
    ensures patch.nombreComun.Some? ==> r.nombreComun == patch.nombreComun
    ensures patch.nombreComun.None? ==> r.nombreComun == p.nombreComun
    ensures patch.family.Some? ==> r.family == patch.family
    ensures patch.family.None? ==> r.family == p.family
    ensures patch.nivelCuidado.Some? ==> r.nivelCuidado == patch.nivelCuidado
    ensures patch.nivelCuidado.None? ==> r.nivelCuidado == p.nivelCuidado
    ensures patch.riego.Some? ==> r.riego == patch.riego
    ensures patch.riego.None? ==> r.riego == p.riego
    ensures patch.cantidad.Some? ==> r.cantidad == patch.cantidad
    ensures patch.cantidad.None? ==> r.cantidad == p.cantidad
    ensures patch.iluminacion.Some? ==> r.iluminacion == patch.iluminacion
    ensures patch.iluminacion.None? ==> r.iluminacion == p.iluminacion
    ensures patch.temperatura.Some? ==> r.temperatura == patch.temperatura
    ensures patch.temperatura.None? ==> r.temperatura == p.temperatura
    ensures patch.humedad.Some? ==> r.humedad == patch.humedad
    ensures patch.humedad.None? ==> r.humedad == p.humedad
    ensures patch.suelo.Some? ==> r.suelo == patch.suelo
    ensures patch.suelo.None? ==> r.suelo == p.suelo
    ensures patch.propagacion.Some? ==> r.propagacion == patch.propagacion
    ensures patch.propagacion.None? ==> r.propagacion == p.propagacion
    ensures patch.toxicity.Some? ==> r.toxicity == patch.toxicity
    ensures patch.toxicity.None? ==> r.toxicity == p.toxicity
    ensures patch.imageUrl.Some? ==> r.imageUrl == patch.imageUrl
    ensures patch.imageUrl.None? ==> r.imageUrl == p.imageUrl
    ensures patch.nickname.Some? ==> r.nickname == patch.nickname
    ensures patch.nickname.None? ==> r.nickname == p.nickname
    ensures patch.locationInHome.Some? ==> r.locationInHome == patch.locationInHome
    ensures patch.locationInHome.None? ==> r.locationInHome == p.locationInHome
    ensures patch.nextWatering.Some? ==> r.nextWatering == patch.nextWatering
    ensures patch.nextWatering.None? ==> r.nextWatering == p.nextWatering
    ensures patch.nextFertilization.Some? ==> r.nextFertilization == patch.nextFertilization
    ensures patch.nextFertilization.None? ==> r.nextFertilization == p.nextFertilization
    ensures patch.notes.Some? ==> r.notes == patch.notes
    ensures patch.notes.None? ==> r.notes == p.notes
    ensures patch.careLogs.Some? ==> r.careLogs == patch.careLogs
    ensures patch.careLogs.None? ==> r.careLogs == p.careLogs
  {
    Plant(
      Pick(p.id, patch.id),
      Pick(p.nombreComun, patch.nombreComun),
      Pick(p.family, patch.family),
      Pick(p.nivelCuidado, patch.nivelCuidado),
      Pick(p.riego, patch.riego),
      Pick(p.cantidad, patch.cantidad),
      Pick(p.iluminacion, patch.iluminacion),
      Pick(p.temperatura, patch.temperatura),
      Pick(p.humedad, patch.humedad),
      Pick(p.suelo, patch.suelo),
      Pick(p.propagacion, patch.propagacion),
      Pick(p.toxicity, patch.toxicity),
      Pick(p.imageUrl, patch.imageUrl),
      Pick(p.nickname, patch.nickname),
      Pick(p.locationInHome, patch.locationInHome),
      Pick(p.nextWatering, patch.nextWatering),
      Pick(p.nextFertilization, patch.nextFertilization),
      Pick(p.notes, patch.notes),
      Pick(p.careLogs, patch.careLogs))
  }

  /** A record with every field present. */
  predicate Complete(p: Plant) {
    p.id.Some? && p.nombreComun.Some? && p.family.Some? && p.nivelCuidado.Some?
    && p.riego.Some? && p.cantidad.Some? && p.iluminacion.Some? && p.temperatura.Some?
    && p.humedad.Some? && p.suelo.Some? && p.propagacion.Some? && p.toxicity.Some?
    && p.imageUrl.Some? && p.nickname.Some? && p.locationInHome.Some?
    && p.nextWatering.Some? && p.nextFertilization.Some? && p.notes.Some? && p.careLogs.Some?
  }

  /** The record with no field at all, `{}`. */
  const EmptyRecord: Plant := Plant(None, None, None, None, None, None, None, None, None, None,
                                    None, None, None, None, None, None, None, None, None)

  /**
   * Merging is a whole replacement when the patch is complete, changes
   * nothing when the patch is empty, and applying the same patch twice is
   * applying it once.
   */
  lemma MergeLaws(p: Plant, patch: Plant)
    ensures Complete(patch) ==> Merge(p, patch) == patch
    ensures Merge(p, EmptyRecord) == p
    ensures Merge(Merge(p, patch), patch) == Merge(p, patch)
  {
  }

  /**
   * A reply carrying only the identifier and the next watering date moves
   * that date and keeps every other field of the stored plant.
   */
  lemma MergeScheduleOnly(p: Plant, next: int)
    ensures Merge(p, EmptyRecord.(id := p.id, nextWatering := Some(next))) == p.(nextWatering := Some(next))
  {
  }

  /**
   * `prev.map(x => x._id === id ? { ...x, ...patch } : x)`: the elements
   * carrying `id` are merged with the patch, the others stay.
   */
  function MergeById(plants: seq<Plant>, id: Option<string>, patch: Plant): (r: seq<Plant>)
    ensures |r| == |plants|
    ensures forall i :: 0 <= i < |plants| && plants[i].id == id ==> r[i] == Merge(plants[i], patch)
    ensures forall i :: 0 <= i < |plants| && plants[i].id != id ==> r[i] == plants[i]
  {
    if plants == [] then []
    else [if plants[0].id == id then Merge(plants[0], patch) else plants[0]]
         + MergeById(plants[1..], id, patch)
  }

  /** With a complete patch the shallow merge and the whole replacement agree. */
  lemma MergeByIdComplete(plants: seq<Plant>, id: Option<string>, patch: Plant)
    requires Complete(patch)
    ensures MergeById(plants, id, patch) == ReplaceById(plants, id, patch)
  {
    var m, r := MergeById(plants, id, patch), ReplaceById(plants, id, patch);
    forall i | 0 <= i < |plants| ensures m[i] == r[i] {
      MergeLaws(plants[i], patch);
    }
  }

  /** `prev.filter(p => p._id !== id)`. */
  function RemoveById(plants: seq<Plant>, id: Option<string>): (r: seq<Plant>)
    ensures |r| <= |plants|
  {
    if plants == [] then []
    else (if plants[0].id != id then [plants[0]] else []) + RemoveById(plants[1..], id)
  }

  /** Removal keeps exactly the elements that do not carry `id`. */
  lemma {:induction false} RemoveByIdMembers(plants: seq<Plant>, id: Option<string>)
    ensures forall p :: p in RemoveById(plants, id) <==> p in plants && p.id != id
  {
    if plants != [] {
      RemoveByIdMembers(plants[1..], id);
      assert plants == [plants[0]] + plants[1..];
    }
  }

  /** The number of elements carrying `id`. */
  function CountId(plants: seq<Plant>, id: Option<string>): nat {
    if plants == [] then 0 else (if plants[0].id == id then 1 else 0) + CountId(plants[1..], id)
  }

  /** Removal drops exactly the elements carrying `id`. */
  lemma {:induction false} RemoveByIdCount(plants: seq<Plant>, id: Option<string>)
    ensures |RemoveById(plants, id)| == |plants| - CountId(plants, id)
  {
    if plants != [] {
      RemoveByIdCount(plants[1..], id);
    }
  }

  /** Removal looks at the first element, then at the rest. */
  lemma RemoveByIdCons(x: Plant, rest: seq<Plant>, id: Option<string>)
    ensures RemoveById([x] + rest, id) == (if x.id != id then [x] else []) + RemoveById(rest, id)
  {
    assert ([x] + rest)[0] == x && ([x] + rest)[1..] == rest;
  }

  /** Removal keeps the relative order of the remaining elements. */
  lemma {:induction false} RemoveByIdAppend(a: seq<Plant>, b: seq<Plant>, id: Option<string>)
    ensures RemoveById(a + b, id) == RemoveById(a, id) + RemoveById(b, id)
  {
    if a == [] {
      assert a + b == b;
    } else {
      var x, rest := a[0], a[1..];
      var head := if x.id != id then [x] else [];
      calc {
        RemoveById(a + b, id);
        { assert a + b == [x] + (rest + b); }
        RemoveById([x] + (rest + b), id);
        { RemoveByIdCons(x, rest + b, id); }
        head + RemoveById(rest + b, id);
        { RemoveByIdAppend(rest, b, id); }
        head + (RemoveById(rest, id) + RemoveById(b, id));
        (head + RemoveById(rest, id)) + RemoveById(b, id);
        { assert a == [x] + rest; RemoveByIdCons(x, rest, id); }
        RemoveById(a, id) + RemoveById(b, id);
      }
    }
  }

  /**
   * The tagged result of a water or fertilize call: the page alerts and
   * keeps its list, merges the returned plant, refetches, or (for a reply it
   * could not read) has an exception on its hands.
   */
  datatype CareOutcome = Rejected(alert: string) | Merged(plant: Plant) | RefetchRequired | Thrown(message: string)

  /** `if (!res.ok || data.error) …; data.plant ? merge : fetchPlants()`. */
  function Classify(reply: ActionReply, fallback: string): (r: CareOutcome)
    ensures reply.Reply? && (!reply.ok || reply.error != "") ==> r.Rejected?
    ensures r.Rejected? ==> reply.Reply? && r.alert == (if reply.error != "" then reply.error else fallback)
    ensures r.Merged? <==> reply.Reply? && reply.ok && reply.error == "" && reply.plant.Some?
    ensures r.Merged? ==> r.plant == reply.plant.value
    ensures r.RefetchRequired? <==> reply.Reply? && reply.ok && reply.error == "" && reply.plant.None?
    ensures r.Thrown? <==> reply.Unreadable?
  {
    match reply
    case Unreadable(m) => Thrown(m)
    case Reply(ok, error, plant) =>
      if !ok || error != "" then Rejected(if error != "" then error else fallback)
      else if plant.Some? then Merged(plant.value)
      else RefetchRequired
  }

  /** The alert text when an action fails without an `error` of its own. */
  function ActionFallback(action: CareAction): string {
    if action == Water then "Error al regar" else "Error al fertilizar"
  }
}
