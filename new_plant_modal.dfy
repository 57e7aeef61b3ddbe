/**
 * The "Nueva planta" modal: its form is validated with the modal's copy of
 * the plant rules, a valid form is posted with the identity-fallback body,
 * and the reply decides whether the parent is told about the new plant.
 */
module NewPlantModal {
  import opened Wrappers
  import opened Plants
  import opened Sync
  import opened PlantForm

  /** The alert shown when the server refuses the plant without an `error` of its own. */
  const CreateFallback: string := "Error creando la planta"

  /**
   * What `onSubmit` does once the POST has been answered: an unreadable
   * reply ends the handler with an exception, a non-2xx reply is alerted,
   * and a 2xx reply hands `resp.plant` to `onSaved`, closes and resets.
   */
  function AfterReply(reply: ActionReply): (effects: seq<Effect>)
    ensures reply.Unreadable? ==> effects == []
    ensures reply.Reply? && !reply.ok ==>
              effects == [Alert(if reply.error != "" then reply.error else CreateFallback)]
    ensures reply.Reply? && reply.ok ==> effects == [CallSaved(reply.plant), CallClose, ResetForm]
  {
    match reply
    case Unreadable(_) => []
    case Reply(ok, error, plant) =>
      if !ok then [Alert(if error != "" then error else CreateFallback)]
      else [CallSaved(plant), CallClose, ResetForm]
  }

  /**
   * A submit of the form values `f`: the errors when the rules refuse them,
   * otherwise the POST of the modal's body followed by the reply's effects.
   */
  function Submit(isUrl: string -> bool, f: FormValues, reply: ActionReply): (effects: seq<Effect>)
    ensures !AllOk(isUrl, f) ==> effects == [ShowErrors(Validate(NewPlantSchema, isUrl, f).error)]
    ensures AllOk(isUrl, f) ==>
              effects == [Send(Request(Post, PlantsPath), NewPlantBody(Parse(f)))] + AfterReply(reply)
  {
    match Validate(NewPlantSchema, isUrl, f)
    case Err(errors) => [ShowErrors(errors)]
    case Ok(d) => [Send(Request(Post, PlantsPath), NewPlantBody(d))] + AfterReply(reply)
  }

  /** After the request, the callbacks follow a 2xx reply and nothing else; no second request goes out. */
  lemma AnsweredEffects(sent: Effect, reply: ActionReply)
    requires sent.Send?
    ensures var effects := [sent] + AfterReply(reply);
            && (CallClose in effects <==> reply.Reply? && reply.ok)
            && (forall p :: CallSaved(p) in effects <==> reply.Reply? && reply.ok && p == reply.plant)
            && (forall e :: e in effects && e.Send? ==> e == sent)
            && (forall i :: 0 < i < |effects| ==> !effects[i].Send?)
  {
  }

  /**
   * The parent's callbacks run only after a request went out and was
   * answered with a 2xx status: `onSaved` then gets exactly the reply's
   * plant, and a refused or unreadable reply calls neither callback. At
   * most one request goes out, and only as the first step.
   */
  lemma CallbacksOnlyOnSuccess(isUrl: string -> bool, f: FormValues, reply: ActionReply)
    ensures var effects := Submit(isUrl, f, reply);
            (CallClose in effects <==> AllOk(isUrl, f) && reply.Reply? && reply.ok)
            && (forall p :: CallSaved(p) in effects <==> AllOk(isUrl, f) && reply.Reply? && reply.ok && p == reply.plant)
            && (forall e :: e in effects && e.Send? ==> AllOk(isUrl, f))
            && (forall i :: 0 < i < |effects| ==> !effects[i].Send?)
  {
    if AllOk(isUrl, f) {
      AnsweredEffects(Send(Request(Post, PlantsPath), NewPlantBody(Parse(f))), reply);
    }
  }

  /**
   * Submitting the default values sends nothing: the rules refuse them and
   * the name, family and address messages are among the errors shown.
   */
  lemma DefaultsSendNothing(isUrl: string -> bool, reply: ActionReply)
    requires !isUrl("")
    ensures var effects := Submit(isUrl, Defaults, reply);
            && |effects| == 1 && effects[0].ShowErrors?
            && FieldError(Nombre, Message(NewPlantSchema, Nombre)) in effects[0].errors
            && FieldError(Familia, Message(NewPlantSchema, Familia)) in effects[0].errors
            && FieldError(ImageUrl, Message(NewPlantSchema, ImageUrl)) in effects[0].errors
  {
    var r := Validate(NewPlantSchema, isUrl, Defaults);
    assert r.Err? && Submit(isUrl, Defaults, reply) == [ShowErrors(r.error)]
           && FieldError(Nombre, Message(NewPlantSchema, Nombre)) in r.error by {
      DefaultFieldsFailing(isUrl, Nombre);
      RefusalShown(isUrl, Defaults, reply, Nombre);
    }
    assert FieldError(Familia, Message(NewPlantSchema, Familia)) in r.error by {
      DefaultFieldsFailing(isUrl, Familia);
      RefusalShown(isUrl, Defaults, reply, Familia);
    }
    assert FieldError(ImageUrl, Message(NewPlantSchema, ImageUrl)) in r.error by {
      DefaultFieldsFailing(isUrl, ImageUrl);
      RefusalShown(isUrl, Defaults, reply, ImageUrl);
    }
  }

  /** A form with a failing field is answered by its error list alone, that field with the modal's message. */
  lemma RefusalShown(isUrl: string -> bool, f: FormValues, reply: ActionReply, field: Field)
    requires !FieldOk(isUrl, f, field)
    ensures var r := Validate(NewPlantSchema, isUrl, f);
            && r.Err?
            && Submit(isUrl, f, reply) == [ShowErrors(r.error)]
            && FieldError(field, Message(NewPlantSchema, field)) in r.error
  {
    AllOkIffEveryField(isUrl, f);
    var errors := Validate(NewPlantSchema, isUrl, f).error;
    var e :| e in errors && e.field == field;
    assert e == FieldError(field, Message(NewPlantSchema, field));
  }

  /** The form's values after `open` changes: back to the defaults whenever the modal is closed. */
  function AfterOpenChange(open: bool, values: FormValues): (r: FormValues)
    ensures !open ==> r == Defaults
    ensures open ==> r == values
  {
    if open then values else Defaults
  }

  /** Whatever was typed before the modal closed, a submit right after reopening is refused and sends nothing. */
  lemma ReopenedFormSendsNothing(isUrl: string -> bool, typed: FormValues, reply: ActionReply)
    requires !isUrl("")
    ensures forall e :: e in Submit(isUrl, AfterOpenChange(false, typed), reply) ==> e.ShowErrors?
  {
    var f := AfterOpenChange(false, typed);
    DefaultFieldsFailing(isUrl, Nombre);
    RefusalShown(isUrl, f, reply, Nombre);
  }
}
