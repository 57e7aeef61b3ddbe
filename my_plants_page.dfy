/**
 * The "Mis Plantas" page: the plant collection it keeps, the create/edit
 * form's submit, and the handlers that bring the collection in line with
 * the API after a save, a delete, a watering or a fertilization.
 */
module MyPlantsPage {
  import opened Wrappers
  import opened Plants
  import opened Sync
  import opened Detail
  import opened PlantForm

  /** The alert when a save is refused without an `error` of its own. */
  const SaveFallback: string := "Error guardando la planta"
  /** The alert when a delete is refused. */
  const DeleteFailed: string := "No se pudo eliminar"
  /** The alert when the detail view's note is refused. */
  const NoteFailed: string := "No se pudo agregar la nota"
  /** How many notes and care logs the detail view shows before "Ver todas". */
  const DetailLimit: nat := 3

  /** Edit mode: the form was opened on a plant with a non-empty `_id`. */
  predicate IsEdit(initial: Option<Plant>) {
    initial.Some? && initial.value.id.Some? && initial.value.id.value != ""
  }

  /** PATCH of the edited plant, or POST of a new one. */
  function SaveRequest(initial: Option<Plant>): (r: Request)
    ensures IsEdit(initial) ==> r == Request(Patch, PlantPath(initial.value.id.value))
    ensures !IsEdit(initial) ==> r == Request(Post, PlantsPath)
  {
    if IsEdit(initial) then Request(Patch, PlantPath(initial.value.id.value)) else Request(Post, PlantsPath)
  }

  /**
   * The form's values when it opens: the saved plant reloaded for an edit,
   * the defaults for a new plant; a closed form keeps what it holds.
   */
  function FormOnOpen(open: bool, initial: Option<Plant>, values: FormValues): (r: FormValues)
    ensures !open ==> r == values
    ensures open && initial.None? ==> r == Defaults
    ensures open && initial.Some? ==> r == EditPreload(initial.value)
  {
    if !open then values
    else if initial.Some? then EditPreload(initial.value)
    else Defaults
  }

  /**
   * A submit of the page's form: the errors when the rules refuse the
   * values, otherwise the save request with the page's body, then an alert
   * on a non-2xx reply or `onSaved(resp.plant)` and `onClose()` on a 2xx one.
   */
  function FormSubmit(initial: Option<Plant>, isUrl: string -> bool, f: FormValues, reply: ActionReply)
    : (effects: seq<Effect>)
    ensures !AllOk(isUrl, f) ==> effects == [ShowErrors(Validate(PlantsPageSchema, isUrl, f).error)]
    ensures AllOk(isUrl, f) ==>
              |effects| >= 1 && effects[0] == Send(SaveRequest(initial), PlantsPageBody(Parse(f)))
    ensures AllOk(isUrl, f) && reply.Unreadable? ==> |effects| == 1
    ensures AllOk(isUrl, f) && reply.Reply? && !reply.ok ==>
              effects[1..] == [Alert(if reply.error != "" then reply.error else SaveFallback)]
    ensures AllOk(isUrl, f) && reply.Reply? && reply.ok ==> effects[1..] == [CallSaved(reply.plant), CallClose]
  {
    match Validate(PlantsPageSchema, isUrl, f)
    case Err(errors) => [ShowErrors(errors)]
    case Ok(d) =>
      var send := Send(SaveRequest(initial), PlantsPageBody(d));
      match reply
      case Unreadable(_) => [send]
      case Reply(ok, error, plant) =>
        if !ok then [send, Alert(if error != "" then error else SaveFallback)]
        else [send, CallSaved(plant), CallClose]
  }

  /**
   * Reopening a plant saved from valid data and submitting it unchanged
   * sends a PATCH of that plant with exactly the body it was saved with,
   * whenever its care level is not "facil".
   */
  lemma EditResubmitsSameBody(isUrl: string -> bool, d: FormData, id: string, reply: ActionReply)
    requires !isUrl("") && WellFormed(isUrl, d) && d.cuidado != "facil" && id != ""
    ensures var initial := Some(Stored(id, PlantsPageBody(d)));
            var effects := FormSubmit(initial, isUrl, FormOnOpen(true, initial, Defaults), reply);
            effects[0] == Send(Request(Patch, PlantPath(id)), PlantsPageBody(d))
  {
    var initial := Some(Stored(id, PlantsPageBody(d)));
    EditPreloadRoundTrip(PlantsPageSchema, isUrl, d, id);
    assert initial.value.id == Some(id);
  }

  /** The form's values when it opens, with a saved label mapped back to its token by the reverse table. */
  function FormOnOpenIntended(open: bool, initial: Option<Plant>, values: FormValues): (r: FormValues)
    ensures !open ==> r == values
    ensures open && initial.None? ==> r == Defaults
    ensures open && initial.Some? ==> r == EditPreloadIntended(initial.value)
  {
    if !open then values
    else if initial.Some? then EditPreloadIntended(initial.value)
    else Defaults
  }

  /**
   * With the reverse table, reopening any plant saved from valid data and
   * submitting it unchanged sends a PATCH of that plant with exactly the
   * body it was saved with, care level "facil" included.
   */
  lemma EditResubmitsSameBodyIntended(isUrl: string -> bool, d: FormData, id: string, reply: ActionReply)
    requires !isUrl("") && WellFormed(isUrl, d) && id != ""
    ensures var initial := Some(Stored(id, PlantsPageBody(d)));
            var effects := FormSubmit(initial, isUrl, FormOnOpenIntended(true, initial, Defaults), reply);
            effects[0] == Send(Request(Patch, PlantPath(id)), PlantsPageBody(d))
  {
    var initial := Some(Stored(id, PlantsPageBody(d)));
    EditPreloadIntendedRoundTrip(PlantsPageSchema, isUrl, d, id);
    assert initial.value.id == Some(id);
  }

  /** The detail view's notes or care logs: newest first, at most three unless "Ver todas" is on. */
  function DetailEntries(entries: Option<seq<Entry>>, showAll: bool): (r: seq<Entry>)
    ensures !showAll ==> var sorted := SortNewestFirst(entries.GetOr([]));
              |r| == Visible(|sorted|, DetailLimit) && r == sorted[..|r|]
    ensures showAll ==> multiset(r) == multiset(entries.GetOr([])) && NewestFirst(r)
    ensures HasToggle(SortNewestFirst(entries.GetOr([])), DetailLimit) <==> |entries.GetOr([])| > DetailLimit
  {
    DetailList(entries.GetOr([]), DetailLimit, showAll)
  }

  /**
   * The detail view's "add note": nothing for a cancelled or empty prompt,
   * otherwise the POST and then an alert on a non-2xx reply or a page
   * reload on a 2xx one.
   */
  function DetailAddNote(plantId: Option<string>, text: Option<string>, ok: bool)
    : (r: (seq<Request>, Option<string>, bool))
    ensures text.None? || text == Some("") ==> r == ([], None, false)
    ensures text.Some? && text.value != "" ==>
              r.0 == [Request(Post, NotesPath(IdText(plantId)))]
              && (r.1 == Some(NoteFailed) <==> !ok) && (r.1.None? <==> ok) && (r.2 <==> ok)
  {
    if text.None? || text.value == "" then ([], None, false)
    else if !ok then ([Request(Post, NotesPath(IdText(plantId)))], Some(NoteFailed), false)
    else ([Request(Post, NotesPath(IdText(plantId)))], None, true)
  }

  /** The page's state. */
  class Page {
    var plants: seq<Plant>
    var loading: bool
    var err: string
    var showForm: bool
    var editing: Option<Plant>
    var showDetail: bool
    var selected: Option<Plant>

    /** The state on mount, before the first fetch answers. */
    constructor ()
      ensures plants == [] && loading && err == ""
      ensures !showForm && editing.None? && !showDetail && selected.None?
    {
      plants := [];
      loading := true;
      err := "";
      showForm := false;
      editing := None;
      showDetail := false;
      selected := None;
    }

    /** `fetchPlants`: the list from the reply, the error banner, and loading over. */
    method FetchPlants(reply: ListReply)
      modifies this
      ensures plants == Fetched(old(plants), reply)
      ensures err == FetchError(reply) && !loading
      ensures showForm == old(showForm) && editing == old(editing)
      ensures showDetail == old(showDetail) && selected == old(selected)
    {
      loading := true;
      err := "";
      plants := Fetched(plants, reply);
      err := FetchError(reply);
      loading := false;
    }

    /** "+ Nueva Planta": the form opens empty. */
    method OpenNew()
      modifies this
      ensures showForm && editing.None?
      ensures plants == old(plants) && loading == old(loading) && err == old(err)
      ensures showDetail == old(showDetail) && selected == old(selected)
    {
      editing := None;
      showForm := true;
    }

    /** A card's edit button: the form opens on that plant. */
    method OpenEdit(p: Plant)
      modifies this
      ensures showForm && editing == Some(p)
      ensures plants == old(plants) && loading == old(loading) && err == old(err)
      ensures showDetail == old(showDetail) && selected == old(selected)
    {
      editing := Some(p);
      showForm := true;
    }

    /** A card's detail button. */
    method OpenDetail(p: Plant)
      modifies this
      ensures showDetail && selected == Some(p)
      ensures plants == old(plants) && loading == old(loading) && err == old(err)
      ensures showForm == old(showForm) && editing == old(editing)
    {
      selected := Some(p);
      showDetail := true;
    }

    /** The detail view's `onClose`: hidden, the selected plant kept. */
    method CloseDetail()
      modifies this
      ensures !showDetail && selected == old(selected)
      ensures plants == old(plants) && loading == old(loading) && err == old(err)
      ensures showForm == old(showForm) && editing == old(editing)
    {
      showDetail := false;
    }

    /** The form's `onClose`: hidden, and no longer editing. */
    method CloseForm()
      modifies this
      ensures !showForm && editing.None?
      ensures plants == old(plants) && loading == old(loading) && err == old(err)
      ensures showDetail == old(showDetail) && selected == old(selected)
    {
      showForm := false;
      editing := None;
    }

    /**
     * `handleSaved(p)`: while editing, every plant with `p`'s identifier is
     * replaced by `p` (length and order kept); otherwise `p` is prepended.
     */
    method HandleSaved(p: Plant)
      modifies this
      ensures old(editing).Some? ==> plants == ReplaceById(old(plants), p.id, p)
      ensures old(editing).None? ==> plants == [p] + old(plants)
      ensures editing.None?
      ensures loading == old(loading) && err == old(err) && showForm == old(showForm)
      ensures showDetail == old(showDetail) && selected == old(selected)
    {
      if editing.Some? {
        plants := ReplaceById(plants, p.id, p);
      } else {
        plants := [p] + plants;
      }
      editing := None;
    }

    /**
     * `onDelete(id)`: a declined confirm sends nothing and changes nothing;
     * otherwise the DELETE goes out, and a refused one is alerted with the
     * list kept, while an accepted one removes exactly the plants with `id`.
     */
    method OnDelete(id: Option<string>, confirmed: bool, ok: bool)
      returns (requests: seq<Request>, alert: Option<string>)
      modifies this
      ensures !confirmed ==> requests == [] && alert.None? && plants == old(plants)
      ensures confirmed ==> requests == [Request(Delete, PlantPath(IdText(id)))]
      ensures confirmed && !ok ==> alert == Some(DeleteFailed) && plants == old(plants)
      ensures confirmed && ok ==> alert.None? && plants == RemoveById(old(plants), id)
      ensures loading == old(loading) && err == old(err) && showForm == old(showForm)
      ensures editing == old(editing) && showDetail == old(showDetail) && selected == old(selected)
    {
      requests, alert := [], None;
      if !confirmed {
        return;
      }
      requests := [Request(Delete, PlantPath(IdText(id)))];
      if !ok {
        alert := Some(DeleteFailed);
        return;
      }
      plants := RemoveById(plants, id);
    }

    /**
     * `onWater(id)` / `onFertilize(id)`: the action's POST, then by the
     * reply an alert with the list kept, the returned plant put in place of
     * every plant carrying the requested `id`, or one full refetch; an
     * unreadable reply leaves everything as it was.
     */
    method OnCareAction(action: CareAction, id: Option<string>, reply: ActionReply, refetch: ListReply)
      returns (requests: seq<Request>, alert: Option<string>)
      modifies this
      ensures var outcome := Classify(reply, ActionFallback(action));
              && (outcome.RefetchRequired? ==> requests == [ActionRequest(action, IdText(id)), ListRequest])
              && (!outcome.RefetchRequired? ==> requests == [ActionRequest(action, IdText(id))])
              && (outcome.Rejected? ==> alert == Some(outcome.alert) && plants == old(plants))
              && (!outcome.Rejected? ==> alert.None?)
              && (outcome.Merged? ==> plants == ReplaceById(old(plants), id, outcome.plant))
              && (outcome.RefetchRequired? ==> plants == Fetched(old(plants), refetch)
                                               && err == FetchError(refetch) && !loading)
              && (!outcome.RefetchRequired? ==> loading == old(loading) && err == old(err))
              && (outcome.Thrown? ==> plants == old(plants))
      ensures showForm == old(showForm) && editing == old(editing)
      ensures showDetail == old(showDetail) && selected == old(selected)
    {
      requests, alert := [ActionRequest(action, IdText(id))], None;
      match Classify(reply, ActionFallback(action))
      case Rejected(message) =>
        alert := Some(message);
      case Merged(p) =>
        plants := ReplaceById(plants, id, p);
      case RefetchRequired =>
        requests := requests + [ListRequest];
        FetchPlants(refetch);
      case Thrown(_) =>
    }
  }
}
