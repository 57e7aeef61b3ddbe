/**
 * The home page: the counters over the collection, the per-plant water,
 * fertilize and note actions (which merge the returned plant into the old
 * record), and the "Nueva planta" modal's `onSaved`.
 */
module HomePage {
  import opened Wrappers
  import opened Plants
  import opened Sync
  import opened Schedule

  /** The alert when a note is refused without an `error` of its own. */
  const NoteFallback: string := "No se pudo agregar la nota"

  /** The page's state. */
  class Page {
    var plants: seq<Plant>
    var loading: bool
    var err: string
    var modalOpen: bool

    /** The state on mount, before the first fetch answers. */
    constructor ()
      ensures plants == [] && loading && err == "" && !modalOpen
    {
      plants := [];
      loading := true;
      err := "";
      modalOpen := false;
    }

    /** `plantCount`. */
    function PlantCount(): nat
      reads this
    {
      |plants|
    }

    /**
     * `wateringCount`: the plants due at `now`; never more than the
     * plants, and all of them exactly when every plant is due.
     */
    function WateringCount(now: int): (r: nat)
      reads this
      ensures r <= PlantCount()
      ensures r == PlantCount() <==> forall i :: 0 <= i < |plants| ==> Due(plants[i], now)
      ensures r == |DueList(plants, now)|
    {
      DueListFull(plants, now);
      |DueList(plants, now)|
    }

    /** `fetchPlants`: the list from the reply, the error banner, and loading over. */
    method FetchPlants(reply: ListReply)
      modifies this
      ensures plants == Fetched(old(plants), reply)
      ensures err == FetchError(reply) && !loading
      ensures modalOpen == old(modalOpen)
    {
      loading := true;
      err := "";
      plants := Fetched(plants, reply);
      err := FetchError(reply);
      loading := false;
    }

    /** `abrirModal`. */
    method OpenModal()
      modifies this
      ensures modalOpen
      ensures plants == old(plants) && loading == old(loading) && err == old(err)
    {
      modalOpen := true;
    }

    /** The modal's `onClose`. */
    method CloseModal()
      modifies this
      ensures !modalOpen
      ensures plants == old(plants) && loading == old(loading) && err == old(err)
    {
      modalOpen := false;
    }

    /** The modal's `onSaved(plant)`: the new plant goes first, the rest follow unchanged. */
    method OnSaved(p: Plant)
      modifies this
      ensures plants == [p] + old(plants)
      ensures |plants| == |old(plants)| + 1 && plants[1..] == old(plants)
      ensures loading == old(loading) && err == old(err) && modalOpen == old(modalOpen)
    {
      plants := [p] + plants;
    }

    /**
     * `waterPlant(id)` / `fertilizePlant(id)`: the action's POST, then an
     * alert (the reply's error, the fallback, or the thrown message) with
     * the list kept, a shallow merge of the returned fields into every plant
     * carrying the requested `id`, or one full refetch.
     */
    method CareAction(action: CareAction, id: Option<string>, reply: ActionReply, refetch: ListReply)
      returns (requests: seq<Request>, alert: Option<string>)
      modifies this
      ensures var outcome := Classify(reply, ActionFallback(action));
              && (outcome.RefetchRequired? ==> requests == [ActionRequest(action, IdText(id)), ListRequest])
              && (!outcome.RefetchRequired? ==> requests == [ActionRequest(action, IdText(id))])
              && (outcome.Rejected? ==> alert == Some(outcome.alert) && plants == old(plants))
              && (outcome.Thrown? ==> alert == Some(outcome.message) && plants == old(plants))
              && (outcome.Merged? || outcome.RefetchRequired? ==> alert.None?)
              && (outcome.Merged? ==> plants == MergeById(old(plants), id, outcome.plant))
              && (outcome.RefetchRequired? ==> plants == Fetched(old(plants), refetch)
                                               && err == FetchError(refetch) && !loading)
              && (!outcome.RefetchRequired? ==> loading == old(loading) && err == old(err))
      ensures modalOpen == old(modalOpen)
    {
      requests, alert := [ActionRequest(action, IdText(id))], None;
      match Classify(reply, ActionFallback(action))
      case Rejected(message) =>
        alert := Some(message);
      case Merged(patch) =>
        plants := MergeById(plants, id, patch);
      case RefetchRequired =>
        requests := requests + [ListRequest];
        FetchPlants(refetch);
      case Thrown(message) =>
        alert := Some(message);
    }

    /**
     * `addNote(id)`: a cancelled or empty prompt sends nothing; otherwise
     * the note's POST, then an alert with the list kept, or one refetch.
     */
    method AddNote(id: Option<string>, text: Option<string>, reply: ActionReply, refetch: ListReply)
      returns (requests: seq<Request>, alert: Option<string>)
      modifies this
      ensures text.None? || text == Some("") ==>
                requests == [] && alert.None? && plants == old(plants)
                && loading == old(loading) && err == old(err)
      ensures text.Some? && text.value != "" ==>
                var outcome := Classify(reply, NoteFallback);
                && (outcome.Merged? || outcome.RefetchRequired? ==>
                      requests == [Request(Post, NotesPath(IdText(id))), ListRequest] && alert.None?
                      && plants == Fetched(old(plants), refetch) && err == FetchError(refetch) && !loading)
                && (outcome.Rejected? || outcome.Thrown? ==>
                      requests == [Request(Post, NotesPath(IdText(id)))]
                      && alert == Some(if outcome.Rejected? then outcome.alert else outcome.message)
                      && plants == old(plants) && loading == old(loading) && err == old(err))
      ensures modalOpen == old(modalOpen)
    {
      requests, alert := [], None;
      if text.None? || text.value == "" {
        return;
      }
      requests := [Request(Post, NotesPath(IdText(id)))];
      match Classify(reply, NoteFallback)
      case Rejected(message) =>
        alert := Some(message);
      case Merged(_) =>
        requests := requests + [ListRequest];
        FetchPlants(refetch);
      case RefetchRequired =>
        requests := requests + [ListRequest];
        FetchPlants(refetch);
      case Thrown(message) =>
        alert := Some(message);
    }
  }
}
