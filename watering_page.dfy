/**
 * The watering page: the collection split into the due ("hoy") and
 * upcoming ("proximos") lists, the per-plant actions, notes, the detail
 * view's own actions, and the bulk watering of everything due today.
 */
module WateringPage {
  import opened Wrappers
  import opened Plants
  import opened Sync
  import opened Schedule
  import opened Detail

  /** The alert when a note is refused without an `error` of its own. */
  const NoteFallback: string := "No se pudo agregar la nota"
  /** The alert when bulk watering finds nothing due. */
  const NothingDue: string := "No hay plantas por regar hoy."
  /** The alert after a bulk watering. */
  const BulkDone: string := "Listo. Se registró el riego de hoy (donde aplicaba)."
  /** How many notes and care logs the detail view shows before "Ver todas". */
  const DetailLimit: nat := 5

  /** The detail view's notes or care logs: newest first, at most five unless "Ver todas" is on. */
  function DetailEntries(entries: Option<seq<Entry>>, showAll: bool): (r: seq<Entry>)
    ensures !showAll ==> var sorted := SortNewestFirst(entries.GetOr([]));
              |r| == Visible(|sorted|, DetailLimit) && r == sorted[..|r|]
    ensures showAll ==> multiset(r) == multiset(entries.GetOr([])) && NewestFirst(r)
    ensures HasToggle(SortNewestFirst(entries.GetOr([])), DetailLimit) <==> |entries.GetOr([])| > DetailLimit
  {
    DetailList(entries.GetOr([]), DetailLimit, showAll)
  }

  /** The page's state. */
  class Page {
    var plants: seq<Plant>
    var loading: bool
    var err: string
    var filter: string
    var showDetail: bool
    var selected: Option<Plant>

    /** The state on mount: nothing loaded yet, the "hoy" filter on. */
    constructor ()
      ensures plants == [] && loading && err == "" && filter == InitialFilter
      ensures !showDetail && selected.None?
    {
      plants := [];
      loading := true;
      err := "";
      filter := InitialFilter;
      showDetail := false;
      selected := None;
    }

    /** The list on screen for the current filter. */
    function OnScreen(now: int): (r: seq<Plant>)
      reads this
      ensures filter == "hoy" ==> r == DueList(plants, now)
      ensures filter == "proximos" ==> r == UpcomingList(plants, now)
      ensures filter != "hoy" && filter != "proximos" ==> r == plants
      ensures multiset(r) <= multiset(plants)
    {
      ViewWithinPlants(filter, plants, now);
      View(filter, plants, now)
    }

    /** `fetchPlants`: the list from the reply, the error banner, and loading over. */
    method FetchPlants(reply: ListReply)
      modifies this
      ensures plants == Fetched(old(plants), reply)
      ensures err == FetchError(reply) && !loading
      ensures filter == old(filter) && showDetail == old(showDetail) && selected == old(selected)
    {
      loading := true;
      err := "";
      plants := Fetched(plants, reply);
      err := FetchError(reply);
      loading := false;
    }

    /** The "Hoy" / "Próximos" / "Todos" buttons. */
    method SetFilter(f: string)
      modifies this
      ensures filter == f
      ensures plants == old(plants) && loading == old(loading) && err == old(err)
      ensures showDetail == old(showDetail) && selected == old(selected)
    {
      filter := f;
    }

    /** A card's detail button. */
    method OpenDetail(p: Plant)
      modifies this
      ensures showDetail && selected == Some(p)
      ensures plants == old(plants) && loading == old(loading) && err == old(err) && filter == old(filter)
    {
      selected := Some(p);
      showDetail := true;
    }

    /** The detail view's `onClose`: hidden, the selected plant kept. */
    method CloseDetail()
      modifies this
      ensures !showDetail && selected == old(selected)
      ensures plants == old(plants) && loading == old(loading) && err == old(err)
      ensures filter == old(filter)
    {
      showDetail := false;
    }

    /**
     * `onWater(id)` / `onFertilize(id)`: the action's POST, then an alert
     * with the list kept, the returned plant in place of every plant
     * carrying the requested `id`, or one full refetch.
     */
    method OnCareAction(action: CareAction, id: Option<string>, reply: ActionReply, refetch: ListReply)
      returns (requests: seq<Request>, alert: Option<string>)
      modifies this
      ensures var outcome := Classify(reply, ActionFallback(action));
              && (outcome.RefetchRequired? ==> requests == [ActionRequest(action, IdText(id)), ListRequest])
              && (!outcome.RefetchRequired? ==> requests == [ActionRequest(action, IdText(id))])
              && (outcome.Rejected? ==> alert == Some(outcome.alert) && plants == old(plants))
              && (!outcome.Rejected? ==> alert.None?)
              && (outcome.Merged? ==> plants == ReplaceById(old(plants), id, outcome.plant))
              && (outcome.RefetchRequired? ==> plants == Fetched(old(plants), refetch)
                                               && err == FetchError(refetch) && !loading)
              && (!outcome.RefetchRequired? ==> loading == old(loading) && err == old(err))
              && (outcome.Thrown? ==> plants == old(plants))
      ensures filter == old(filter) && showDetail == old(showDetail) && selected == old(selected)
    {
      requests, alert := [ActionRequest(action, IdText(id))], None;
      match Classify(reply, ActionFallback(action))
      case Rejected(message) =>
        alert := Some(message);
      case Merged(p) =>
        plants := ReplaceById(plants, id, p);
      case RefetchRequired =>
        requests := requests + [ListRequest];
        FetchPlants(refetch);
      case Thrown(_) =>
    }

    /**
     * `onAddNote(id)`: a cancelled or empty prompt sends nothing; otherwise
     * the note's POST, then an alert with the list kept, or exactly one
     * refetch and no local change, whether or not a plant came back.
     */
    method OnAddNote(id: Option<string>, text: Option<string>, reply: ActionReply, refetch: ListReply)
      returns (requests: seq<Request>, alert: Option<string>)
      modifies this
      ensures text.None? || text == Some("") ==>
                requests == [] && alert.None? && plants == old(plants)
                && loading == old(loading) && err == old(err)
      ensures text.Some? && text.value != "" ==>
                var outcome := Classify(reply, NoteFallback);
                && (outcome.Merged? || outcome.RefetchRequired? ==>
                      requests == [Request(Post, NotesPath(IdText(id))), ListRequest] && alert.None?
                      && plants == Fetched(old(plants), refetch) && err == FetchError(refetch) && !loading)
                && (outcome.Rejected? ==>
                      requests == [Request(Post, NotesPath(IdText(id)))] && alert == Some(outcome.alert)
                      && plants == old(plants) && loading == old(loading) && err == old(err))
                && (outcome.Thrown? ==>
                      requests == [Request(Post, NotesPath(IdText(id)))] && alert.None?
                      && plants == old(plants) && loading == old(loading) && err == old(err))
      ensures filter == old(filter) && showDetail == old(showDetail) && selected == old(selected)
    {
      requests, alert := [], None;
      if text.None? || text.value == "" {
        return;
      }
      requests := [Request(Post, NotesPath(IdText(id)))];
      match Classify(reply, NoteFallback)
      case Rejected(message) =>
        alert := Some(message);
      case Merged(_) =>
        requests := requests + [ListRequest];
        FetchPlants(refetch);
      case RefetchRequired =>
        requests := requests + [ListRequest];
        FetchPlants(refetch);
      case Thrown(_) =>
    }

    /**
     * The detail view's water and fertilize buttons on the selected plant:
     * the action's POST, then an alert, or a refetch of the whole list
     * whether or not a plant came back; nothing is merged locally.
     */
    method DetailCareAction(action: CareAction, reply: ActionReply, refetch: ListReply)
      returns (requests: seq<Request>, alert: Option<string>)
      requires selected.Some?
      modifies this
      ensures var outcome := Classify(reply, ActionFallback(action));
              var sent := ActionRequest(action, IdText(old(selected).value.id));
              && (outcome.Merged? || outcome.RefetchRequired? ==>
                    requests == [sent, ListRequest] && alert.None?
                    && plants == Fetched(old(plants), refetch) && err == FetchError(refetch) && !loading)
              && (outcome.Rejected? ==>
                    requests == [sent] && alert == Some(outcome.alert)
                    && plants == old(plants) && loading == old(loading) && err == old(err))
              && (outcome.Thrown? ==>
                    requests == [sent] && alert.None?
                    && plants == old(plants) && loading == old(loading) && err == old(err))
      ensures filter == old(filter) && showDetail == old(showDetail) && selected == old(selected)
    {
      requests, alert := [ActionRequest(action, IdText(selected.value.id))], None;
      match Classify(reply, ActionFallback(action))
      case Rejected(message) =>
        alert := Some(message);
      case Merged(_) =>
        requests := requests + [ListRequest];
        FetchPlants(refetch);
      case RefetchRequired =>
        requests := requests + [ListRequest];
        FetchPlants(refetch);
      case Thrown(_) =>
    }

    /**
     * The detail view's "add note" on the selected plant: nothing for a
     * cancelled or empty prompt; a refused POST is alerted with its
     * `error` (or the fallback when the body has none or cannot be read);
     * an accepted one refetches the list.
     */
    method DetailAddNote(text: Option<string>, ok: bool, error: string, refetch: ListReply)
      returns (requests: seq<Request>, alert: Option<string>)
      requires selected.Some?
      modifies this
      ensures text.None? || text == Some("") ==>
                requests == [] && alert.None? && plants == old(plants)
                && loading == old(loading) && err == old(err)
      ensures text.Some? && text.value != "" && !ok ==>
                requests == [Request(Post, NotesPath(IdText(old(selected).value.id)))]
                && alert == Some(if error != "" then error else NoteFallback)
                && plants == old(plants) && loading == old(loading) && err == old(err)
      ensures text.Some? && text.value != "" && ok ==>
                requests == [Request(Post, NotesPath(IdText(old(selected).value.id))), ListRequest]
                && alert.None? && plants == Fetched(old(plants), refetch)
                && err == FetchError(refetch) && !loading
      ensures filter == old(filter) && showDetail == old(showDetail) && selected == old(selected)
    {
      requests, alert := [], None;
      if text.None? || text.value == "" {
        return;
      }
      requests := [Request(Post, NotesPath(IdText(selected.value.id)))];
      if !ok {
        alert := Some(if error != "" then error else NoteFallback);
        return;
      }
      requests := requests + [ListRequest];
      FetchPlants(refetch);
    }

    /**
     * `bulkWaterToday`: with nothing due, only the "nothing to water"
     * alert; a declined confirm changes nothing; otherwise one water POST
     * per due plant in list order, whatever each answers, then one refetch
     * and the completion alert.
     */
    method BulkWaterToday(now: int, confirmed: bool, refetch: ListReply)
      returns (requests: seq<Request>, alerts: seq<string>)
      modifies this
      ensures var today := DueList(old(plants), now);
              && (today == [] ==> requests == [] && alerts == [NothingDue])
              && (today != [] && !confirmed ==> requests == [] && alerts == [])
              && (today != [] && confirmed ==>
                    && |requests| == |today| + 1
                    && (forall i :: 0 <= i < |today| ==> requests[i] == ActionRequest(Water, IdText(today[i].id)))
                    && requests[|today|] == ListRequest
                    && alerts == [BulkDone])
      ensures DueList(old(plants), now) != [] && confirmed ==>
                plants == Fetched(old(plants), refetch) && err == FetchError(refetch) && !loading
      ensures DueList(old(plants), now) == [] || !confirmed ==>
                plants == old(plants) && loading == old(loading) && err == old(err)
      ensures filter == old(filter) && showDetail == old(showDetail) && selected == old(selected)
    {
      var today := DueList(plants, now);
      requests, alerts := [], [];
      if |today| == 0 {
        alerts := [NothingDue];
        return;
      }
      if !confirmed {
        return;
      }
      var i := 0;
      while i < |today|
        invariant 0 <= i <= |today|
        invariant |requests| == i
        invariant forall k :: 0 <= k < i ==> requests[k] == ActionRequest(Water, IdText(today[k].id))
      {
        requests := requests + [ActionRequest(Water, IdText(today[i].id))];
        i := i + 1;
      }
      requests := requests + [ListRequest];
      FetchPlants(refetch);
      alerts := [BulkDone];
    }
  }
}
