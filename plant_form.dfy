/**
 * The plant form shared by the "Mis Plantas" create/edit form and the
 * "Nueva planta" modal: its field rules, the token-to-label table the
 * API expects, the request body built from a valid form, and the values
 * the edit form is reloaded with.
 *
 * The two copies of the rules differ only in some messages and in what
 * `mapEnum` does with a token missing from the table.
 */
module PlantForm {
  import opened Wrappers
  import opened Text
  import opened Plants

  // ---------- Enumerations and labels ----------

  const CuidadoTokens: seq<string> := ["facil", "moderado", "dificil"]
  const IluminacionTokens: seq<string> := ["directa", "indirecta"]
  const TemperaturaTokens: seq<string> := ["calido", "frio"]
  const HumedadTokens: seq<string> := ["alta", "media", "baja"]
  const SueloTokens: seq<string> := ["drenado", "arcilloso", "compacto"]
  const PropagacionTokens: seq<string> := ["esqueje", "semilla"]
  const ToxicaTokens: seq<string> := ["si", "no"]

  /** The 15-entry table of `mapEnum`: lower-case token to the label the API stores. */
  const EnumLabels: map<string, string> := map[
    "facil" := "Fácil", "moderado" := "Moderado", "dificil" := "Dificil",
    "frio" := "Frio", "calido" := "Calido",
    "indirecta" := "Indirecta", "directa" := "Directa",
    "alta" := "Alta", "media" := "Media", "baja" := "Baja",
    "drenado" := "Drenado", "arcilloso" := "Arcilloso", "compacto" := "Compacto",
    "esqueje" := "Esqueje", "semilla" := "Semilla"]

  /** The table's keys are exactly the tokens of the six enumerations `mapEnum` is applied to. */
  lemma TableCoversEnums()
    ensures EnumLabels.Keys
            == set t | t in CuidadoTokens + IluminacionTokens + TemperaturaTokens
                         + HumedadTokens + SueloTokens + PropagacionTokens
  {
  }

  /** `mapEnum` of the "Mis Plantas" form: table label, or the token with its first character upper-cased. */
  function MapEnumCapitalizing(v: string): (r: string)
    ensures v == "" ==> r == ""
    ensures v in EnumLabels ==> r == EnumLabels[v]
    ensures v != "" && v !in EnumLabels ==> r == Capitalize(v)
  {
    if v == "" then v else if v in EnumLabels then EnumLabels[v] else Capitalize(v)
  }

  /** `mapEnum` of the "Nueva planta" modal: table label, or the token unchanged. */
  function MapEnumIdentity(v: string): (r: string)
    ensures v in EnumLabels ==> r == EnumLabels[v]
    ensures v !in EnumLabels ==> r == v
  {
    if v == "" then v else if v in EnumLabels then EnumLabels[v] else v
  }

  /** The two copies of `mapEnum` disagree exactly on unknown tokens that capitalisation changes. */
  lemma MapEnumCopiesDiffer(v: string)
    ensures MapEnumCapitalizing(v) != MapEnumIdentity(v)
            <==> v != "" && v !in EnumLabels && UpperChar(v[0]) != v[0]
  {
    if v != "" && v !in EnumLabels && UpperChar(v[0]) == v[0] {
      assert Capitalize(v) == [v[0]] + v[1..] == v;
    }
  }

  /** Lower-casing gives the token back for the first seven labels. */
  lemma LowerInvertsFirstLabels(t: string)
    requires t in ["moderado", "dificil", "frio", "calido", "indirecta", "directa", "alta"]
    ensures Lower(EnumLabels[t]) == t
  {
  }

  /** Lower-casing gives the token back for the last seven labels. */
  lemma LowerInvertsLastLabels(t: string)
    requires t in ["media", "baja", "drenado", "arcilloso", "compacto", "esqueje", "semilla"]
    ensures Lower(EnumLabels[t]) == t
  {
  }

  /**
   * Lower-casing a label gives its token back for fourteen of the fifteen
   * entries; "Fácil" lower-cases to "fácil", which no enumeration accepts.
   */
  lemma LowerInvertsLabels(t: string)
    requires t in EnumLabels
    ensures t != "facil" ==> Lower(EnumLabels[t]) == t
    ensures t == "facil" ==> Lower(EnumLabels[t]) == "fácil" && "fácil" !in CuidadoTokens
  {
    if t in ["moderado", "dificil", "frio", "calido", "indirecta", "directa", "alta"] {
      LowerInvertsFirstLabels(t);
    } else if t != "facil" {
      LowerInvertsLastLabels(t);
    }
  }

  /** The reverse table: label to token. */
  const EnumTokens: map<string, string> := map[
    "Fácil" := "facil", "Moderado" := "moderado", "Dificil" := "dificil",
    "Frio" := "frio", "Calido" := "calido",
    "Indirecta" := "indirecta", "Directa" := "directa",
    "Alta" := "alta", "Media" := "media", "Baja" := "baja",
    "Drenado" := "drenado", "Arcilloso" := "arcilloso", "Compacto" := "compacto",
    "Esqueje" := "esqueje", "Semilla" := "semilla"]

  /** The token an edit form should show for a stored label: the reverse table, else lower case. */
  function TokenOf(shown: string): (r: string)
    ensures shown !in EnumTokens ==> r == Lower(shown)
  {
    if shown in EnumTokens then EnumTokens[shown] else Lower(shown)
  }

  /** The reverse table undoes `mapEnum` on every table token, "facil" included. */
  lemma TokenOfInvertsLabels(t: string)
    requires t in EnumLabels
    ensures TokenOf(MapEnumCapitalizing(t)) == t && TokenOf(MapEnumIdentity(t)) == t
  {
  }

  // ---------- Form values and their rules ----------

  /**
   * A numeric input as the rules see it: the empty string, or what
   * `Number(v)` made of the text (`None` when that is NaN).
   */
  datatype NumberInput = Blank | Entered(number: Option<real>)

  /** The form's values: text inputs, selects and radios give strings. */
  datatype FormValues = FormValues(
    nombre: string,
    familia: string,
    cuidado: string,
    riego: NumberInput,
    cantidad: NumberInput,
    iluminacion: string,
    temperatura: string,
    humedad: string,
    suelo: string,
    propagacion: string,
    toxica: string,
    imageUrl: string,
    nickname: string,
    locationInHome: string)

  /** The `defaultValues` both forms start from and are reset to. */
  const Defaults: FormValues :=
    FormValues("", "", "", Blank, Blank, "", "calido", "", "", "", "no", "", "", "")

  /** What a successful parse hands to `onSubmit`: trimmed strings and numbers. */
  datatype FormData = FormData(
    nombre: string,
    familia: string,
    cuidado: string,
    riego: real,
    cantidad: real,
    iluminacion: string,
    temperatura: string,
    humedad: string,
    suelo: string,
    propagacion: string,
    toxica: string,
    imageUrl: string,
    nickname: string,
    locationInHome: string)

  datatype Field =
    | Nombre | Familia | Cuidado | Riego | Cantidad | Iluminacion | Temperatura
    | Humedad | Suelo | Propagacion | Toxica | ImageUrl | Nickname | LocationInHome

  /** The schema's fields, in the order its errors are reported. */
  const AllFields: seq<Field> := [Nombre, Familia, Cuidado, Riego, Cantidad, Iluminacion,
                                  Temperatura, Humedad, Suelo, Propagacion, Toxica, ImageUrl,
                                  Nickname, LocationInHome]

  datatype FieldError = FieldError(field: Field, message: string)

  /** Which copy of the rules: the "Mis Plantas" form or the "Nueva planta" modal. */
  datatype Schema = PlantsPageSchema | NewPlantSchema

  /** Each field's message in each copy. */
  function Message(schema: Schema, field: Field): string {
    match field
    case Nombre => "El nombre debe tener al menos 2 caracteres"
    case Familia => "La familia debe tener al menos 2 caracteres"
    case Cuidado => "El nivel de cuidado debe ser Fácil, Moderado o Difícil"
    case Riego =>
      if schema == PlantsPageSchema then "El riego debe ser un número mayor o igual a 0 (en días)"
      else "El riego debe ser un número mayor o igual a 0 (en hrs)"
    case Cantidad => "La cantidad debe ser un número mayor o igual a 0 (en ml)"
    case Iluminacion =>
      if schema == PlantsPageSchema then "La iluminación debe ser Directa o Indirecta"
      else "Debes seleccionar el tipo de iluminación"
    case Temperatura =>
      if schema == PlantsPageSchema then "La temperatura debe ser Cálido o Frío"
      else "Debes seleccionar la temperatura"
    case Humedad =>
      if schema == PlantsPageSchema then "La humedad debe ser Alta, Media o Baja"
      else "Debes seleccionar el nivel de humedad"
    case Suelo =>
      if schema == PlantsPageSchema then "El suelo debe ser Drenado, Arcilloso o Compacto"
      else "Debes seleccionar el tipo de suelo"
    case Propagacion =>
      if schema == PlantsPageSchema then "La propagación debe ser por Esqueje o Semilla"
      else "Debes seleccionar el método de propagación"
    case Toxica =>
      if schema == PlantsPageSchema then "El valor debe ser Sí o No"
      else "Debes indicar si la planta es tóxica"
    case ImageUrl => "Debe ser una URL válida que comience con http:// o https://"
    case Nickname => ""
    case LocationInHome => "La ubicación debe tener al menos 2 caracteres"
  }

  /**
   * The numeric rule: `""` becomes undefined and is refused, NaN is
   * refused, a negative number is refused, anything else is the number.
   */
  function Coerce(n: NumberInput): (r: Option<real>)
    ensures r.Some? <==> n.Entered? && n.number.Some? && n.number.value >= 0.0
    ensures r.Some? ==> r.value == n.number.value
  {
    match n
    case Blank => None
    case Entered(None) => None
    case Entered(Some(v)) => if v >= 0.0 then Some(v) else None
  }

  /** A trimmed text of at least two characters. */
  predicate LongEnough(s: string) {
    |Trim(s)| >= 2
  }

  /** Whether one field passes; `isUrl` stands for the URL check on the trimmed text. */
  predicate FieldOk(isUrl: string -> bool, f: FormValues, field: Field) {
    match field
    case Nombre => LongEnough(f.nombre)
    case Familia => LongEnough(f.familia)
    case Cuidado => f.cuidado in CuidadoTokens
    case Riego => Coerce(f.riego).Some?
    case Cantidad => Coerce(f.cantidad).Some?
    case Iluminacion => f.iluminacion in IluminacionTokens
    case Temperatura => f.temperatura in TemperaturaTokens
    case Humedad => f.humedad in HumedadTokens
    case Suelo => f.suelo in SueloTokens
    case Propagacion => f.propagacion in PropagacionTokens
    case Toxica => f.toxica in ToxicaTokens
    case ImageUrl => isUrl(Trim(f.imageUrl))
    case Nickname => true
    case LocationInHome => LongEnough(f.locationInHome)
  }

  /** Every field passes, written out field by field. */
  predicate AllOk(isUrl: string -> bool, f: FormValues) {
    && LongEnough(f.nombre) && LongEnough(f.familia)
    && f.cuidado in CuidadoTokens
    && Coerce(f.riego).Some? && Coerce(f.cantidad).Some?
    && f.iluminacion in IluminacionTokens && f.temperatura in TemperaturaTokens
    && f.humedad in HumedadTokens && f.suelo in SueloTokens
    && f.propagacion in PropagacionTokens && f.toxica in ToxicaTokens
    && isUrl(Trim(f.imageUrl))
    && LongEnough(f.locationInHome)
  }

  /** The written-out check agrees with the per-field one. */
  lemma AllOkIffEveryField(isUrl: string -> bool, f: FormValues)
    ensures AllOk(isUrl, f) <==> forall field :: FieldOk(isUrl, f, field)
  {
    if !AllOk(isUrl, f) {
      var failing :=
        if !LongEnough(f.nombre) then Nombre
        else if !LongEnough(f.familia) then Familia
        else if f.cuidado !in CuidadoTokens then Cuidado
        else if Coerce(f.riego).None? then Riego
        else if Coerce(f.cantidad).None? then Cantidad
        else if f.iluminacion !in IluminacionTokens then Iluminacion
        else if f.temperatura !in TemperaturaTokens then Temperatura
        else if f.humedad !in HumedadTokens then Humedad
        else if f.suelo !in SueloTokens then Suelo
        else if f.propagacion !in PropagacionTokens then Propagacion
        else if f.toxica !in ToxicaTokens then Toxica
        else if !isUrl(Trim(f.imageUrl)) then ImageUrl
        else LocationInHome;
      assert !FieldOk(isUrl, f, failing);
    }
  }

  /** The schema's field list names every field. */
  lemma AllFieldsListed(field: Field)
    ensures field in AllFields
  {
    match field
    case Nombre => assert AllFields[0] == field;
    case Familia => assert AllFields[1] == field;
    case Cuidado => assert AllFields[2] == field;
    case Riego => assert AllFields[3] == field;
    case Cantidad => assert AllFields[4] == field;
    case Iluminacion => assert AllFields[5] == field;
    case Temperatura => assert AllFields[6] == field;
    case Humedad => assert AllFields[7] == field;
    case Suelo => assert AllFields[8] == field;
    case Propagacion => assert AllFields[9] == field;
    case Toxica => assert AllFields[10] == field;
    case ImageUrl => assert AllFields[11] == field;
    case Nickname => assert AllFields[12] == field;
    case LocationInHome => assert AllFields[13] == field;
  }

  /** No field is listed twice. */
  predicate Distinct(fields: seq<Field>) {
    forall i, j :: 0 <= i < j < |fields| ==> fields[i] != fields[j]
  }

  /** A field's position in the schema's list. */
  function Position(field: Field): nat {
    match field
    case Nombre => 0 case Familia => 1 case Cuidado => 2 case Riego => 3
    case Cantidad => 4 case Iluminacion => 5 case Temperatura => 6 case Humedad => 7
    case Suelo => 8 case Propagacion => 9 case Toxica => 10 case ImageUrl => 11
    case Nickname => 12 case LocationInHome => 13
  }

  /** The schema lists each field once. */
  lemma AllFieldsDistinct()
    ensures Distinct(AllFields)
  {
    assert forall i :: 0 <= i < |AllFields| ==> Position(AllFields[i]) == i;
  }

  /** The errors of the given fields, each checked on its own, in order. */
  function ErrorsFor(schema: Schema, isUrl: string -> bool, f: FormValues, fields: seq<Field>)
    : (r: seq<FieldError>)
    ensures |r| <= |fields|
    ensures forall i :: 0 <= i < |r| ==> r[i].field in fields
    ensures forall e :: e in r <==>
              e.field in fields && !FieldOk(isUrl, f, e.field) && e.message == Message(schema, e.field)
  {
    if fields == [] then []
    else
      (if FieldOk(isUrl, f, fields[0]) then [] else [FieldError(fields[0], Message(schema, fields[0]))])
      + ErrorsFor(schema, isUrl, f, fields[1..])
  }

  /** No two errors name the same field. */
  predicate OneErrorPerField(errors: seq<FieldError>) {
    forall i, j :: 0 <= i < j < |errors| ==> errors[i].field != errors[j].field
  }

  /** Putting an error for a field the rest does not name in front keeps one error per field. */
  lemma PrependKeepsOneErrorPerField(head: seq<FieldError>, rest: seq<FieldError>, field: Field)
    requires head == [] || (|head| == 1 && head[0].field == field)
    requires OneErrorPerField(rest)
    requires forall k :: 0 <= k < |rest| ==> rest[k].field != field
    ensures OneErrorPerField(head + rest)
  {
    var r := head + rest;
    forall i, j | 0 <= i < j < |r| ensures r[i].field != r[j].field {
      if head == [] {
        assert r[i] == rest[i] && r[j] == rest[j];
      } else if i == 0 {
        assert r[j] == rest[j - 1];
      } else {
        assert r[i] == rest[i - 1] && r[j] == rest[j - 1];
      }
    }
  }

  /** When no field is listed twice, no field gets two errors: one error per failing field. */
  lemma {:induction false} ErrorsForDistinct(schema: Schema, isUrl: string -> bool, f: FormValues, fields: seq<Field>)
    requires Distinct(fields)
    ensures OneErrorPerField(ErrorsFor(schema, isUrl, f, fields))
  {
    if fields != [] {
      var rest := ErrorsFor(schema, isUrl, f, fields[1..]);
      var head := if FieldOk(isUrl, f, fields[0]) then [] else [FieldError(fields[0], Message(schema, fields[0]))];
      assert ErrorsFor(schema, isUrl, f, fields) == head + rest;
      assert Distinct(fields[1..]);
      ErrorsForDistinct(schema, isUrl, f, fields[1..]);
      assert fields[0] !in fields[1..];
      PrependKeepsOneErrorPerField(head, rest, fields[0]);
    }
  }

  /** The parsed values; the numbers fall back to 0 only where the rules refuse the input anyway. */
  function Parse(f: FormValues): FormData {
    FormData(Trim(f.nombre), Trim(f.familia), f.cuidado,
             Coerce(f.riego).GetOr(0.0), Coerce(f.cantidad).GetOr(0.0),
             f.iluminacion, f.temperatura, f.humedad, f.suelo, f.propagacion, f.toxica,
             Trim(f.imageUrl), Trim(f.nickname), Trim(f.locationInHome))
  }

  /**
   * The data a successful parse can produce: trimmed texts, the required
   * ones at least two characters long, enumeration tokens, non-negative
   * numbers and an address `isUrl` accepts.
   */
  predicate WellFormed(isUrl: string -> bool, d: FormData) {
    && Trimmed(d.nombre) && |d.nombre| >= 2
    && Trimmed(d.familia) && |d.familia| >= 2
    && d.cuidado in CuidadoTokens
    && d.riego >= 0.0 && d.cantidad >= 0.0
    && d.iluminacion in IluminacionTokens && d.temperatura in TemperaturaTokens
    && d.humedad in HumedadTokens && d.suelo in SueloTokens
    && d.propagacion in PropagacionTokens && d.toxica in ToxicaTokens
    && Trimmed(d.imageUrl) && isUrl(d.imageUrl)
    && Trimmed(d.nickname)
    && Trimmed(d.locationInHome) && |d.locationInHome| >= 2
  }

  predicate HasError(errors: seq<FieldError>, field: Field) {
    exists e :: e in errors && e.field == field
  }

  /** The full error list names exactly the failing fields, and is empty exactly when all pass. */
  lemma ErrorsOfAllFields(schema: Schema, isUrl: string -> bool, f: FormValues)
    ensures var errors := ErrorsFor(schema, isUrl, f, AllFields);
            && (errors == [] <==> AllOk(isUrl, f))
            && forall field :: HasError(errors, field) <==> !FieldOk(isUrl, f, field)
  {
    var errors := ErrorsFor(schema, isUrl, f, AllFields);
    forall field ensures HasError(errors, field) <==> !FieldOk(isUrl, f, field) {
      AllFieldsListed(field);
      if !FieldOk(isUrl, f, field) {
        assert FieldError(field, Message(schema, field)) in errors;
      }
    }
    AllOkIffEveryField(isUrl, f);
    if errors != [] {
      assert errors[0] in errors;
    }
  }

  /** What a passing form parses to is well formed. */
  lemma ParseWellFormed(isUrl: string -> bool, f: FormValues)
    requires AllOk(isUrl, f)
    ensures WellFormed(isUrl, Parse(f))
  {
  }

  /**
   * The schema's verdict. Every failing field gets its own error with its
   * own message, whatever the other fields hold; the form is accepted
   * exactly when no field fails, and then the data are the trimmed texts,
   * the unchanged tokens and the coerced numbers.
   */
  function Validate(schema: Schema, isUrl: string -> bool, f: FormValues)
    : (r: Result<FormData, seq<FieldError>>)
    ensures r.Ok? <==> AllOk(isUrl, f)
    ensures r.Err? ==> forall field :: HasError(r.error, field) <==> !FieldOk(isUrl, f, field)
    ensures r.Err? ==> forall e :: e in r.error ==> e.message == Message(schema, e.field)
    ensures r.Err? ==> |r.error| <= |AllFields|
    ensures r.Err? ==> OneErrorPerField(r.error)
    ensures r.Ok? ==> r.value == Parse(f) && WellFormed(isUrl, r.value)
  {
    var errors := ErrorsFor(schema, isUrl, f, AllFields);
    ErrorsOfAllFields(schema, isUrl, f);
    AllFieldsDistinct();
    ErrorsForDistinct(schema, isUrl, f, AllFields);
    if errors == [] then
      ParseWellFormed(isUrl, f);
      Ok(Parse(f))
    else
      Err(errors)
  }

  /** The form holding exactly the given data, numbers typed as themselves. */
  function Unparse(d: FormData): FormValues {
    FormValues(d.nombre, d.familia, d.cuidado, Entered(Some(d.riego)), Entered(Some(d.cantidad)),
               d.iluminacion, d.temperatura, d.humedad, d.suelo, d.propagacion, d.toxica,
               d.imageUrl, d.nickname, d.locationInHome)
  }

  /** Data the schema can produce, typed back into the form, parse to themselves. */
  lemma ValidateUnparse(schema: Schema, isUrl: string -> bool, d: FormData)
    requires WellFormed(isUrl, d)
    ensures Validate(schema, isUrl, Unparse(d)) == Ok(d)
  {
    TrimOfTrimmed(d.nombre);
    TrimOfTrimmed(d.familia);
    TrimOfTrimmed(d.imageUrl);
    TrimOfTrimmed(d.nickname);
    TrimOfTrimmed(d.locationInHome);
  }

  /** Which fields the default values fail. */
  lemma DefaultFieldsFailing(isUrl: string -> bool, field: Field)
    requires !isUrl("")
    ensures FieldOk(isUrl, Defaults, field) <==> field in {Temperatura, Toxica, Nickname}
  {
    assert Trim("") == "";
  }

  /**
   * The default values are refused by either copy, with an error for every
   * field except the pre-filled temperature and toxicity and the optional
   * nickname.
   */
  lemma DefaultsRejected(schema: Schema, isUrl: string -> bool)
    requires !isUrl("")
    ensures Validate(schema, isUrl, Defaults).Err?
    ensures forall field :: HasError(Validate(schema, isUrl, Defaults).error, field)
                            <==> field !in {Temperatura, Toxica, Nickname}
  {
    DefaultFieldsFailing(isUrl, Nombre);
    forall field ensures FieldOk(isUrl, Defaults, field) <==> field in {Temperatura, Toxica, Nickname} {
      DefaultFieldsFailing(isUrl, field);
    }
  }

  /** Which fields fail once the name is emptied and the address replaced by one `isUrl` refuses. */
  lemma NameAndUrlFailing(isUrl: string -> bool, d: FormData, url: string, field: Field)
    requires WellFormed(isUrl, d) && !isUrl(Trim(url))
    ensures FieldOk(isUrl, Unparse(d).(nombre := "", imageUrl := url), field) <==> field !in {Nombre, ImageUrl}
  {
    assert Trim("") == "";
    TrimOfTrimmed(d.familia);
    TrimOfTrimmed(d.locationInHome);
  }

  /**
   * Data the schema accepts, with the name emptied and an address `isUrl`
   * refuses, get exactly two errors: the name's and the address's.
   */
  lemma NameAndUrlErrorsOnly(schema: Schema, isUrl: string -> bool, d: FormData, url: string)
    requires WellFormed(isUrl, d) && !isUrl(Trim(url))
    ensures var r := Validate(schema, isUrl, Unparse(d).(nombre := "", imageUrl := url));
            && r.Err?
            && (forall field :: HasError(r.error, field) <==> field in {Nombre, ImageUrl})
            && FieldError(Nombre, "El nombre debe tener al menos 2 caracteres") in r.error
            && FieldError(ImageUrl, "Debe ser una URL válida que comience con http:// o https://") in r.error
  {
    var f := Unparse(d).(nombre := "", imageUrl := url);
    forall field ensures FieldOk(isUrl, f, field) <==> field !in {Nombre, ImageUrl} {
      NameAndUrlFailing(isUrl, d, url, field);
    }
    var r := Validate(schema, isUrl, f);
    assert HasError(r.error, Nombre) && HasError(r.error, ImageUrl);
  }

  // ---------- Request body ----------

  /** The JSON body sent to the API; `None` marks a key left `undefined` and so not sent. */
  datatype PlantBody = PlantBody(
    nombreComun: string,
    family: Option<string>,
    nivelCuidado: string,
    riego: Option<real>,
    cantidad: Option<real>,
    iluminacion: string,
    temperatura: string,
    humedad: string,
    suelo: string,
    propagacion: string,
    toxicity: bool,
    imageUrl: Option<string>,
    nickname: Option<string>,
    locationInHome: Option<string>)

  /** `s || undefined`. */
  function OrOmit(s: string): (r: Option<string>)
    ensures r.None? <==> s == ""
    ensures r.Some? ==> r.value == s
  {
    if s == "" then None else Some(s)
  }

  /** The body of the "Mis Plantas" form. */
  function PlantsPageBody(d: FormData): (b: PlantBody)
    ensures b.toxicity <==> d.toxica == "si"
    ensures b.family.None? <==> d.familia == ""
    ensures b.nickname.None? <==> d.nickname == ""
    ensures b.imageUrl.None? <==> d.imageUrl == ""
    ensures b.locationInHome.None? <==> d.locationInHome == ""
    ensures d.temperatura == "" ==> b.temperatura == "Calido"
    ensures b.riego == Some(d.riego) && b.cantidad == Some(d.cantidad)
  {
    PlantBody(d.nombre, OrOmit(d.familia), MapEnumCapitalizing(d.cuidado), Some(d.riego), Some(d.cantidad),
              MapEnumCapitalizing(d.iluminacion),
              MapEnumCapitalizing(if d.temperatura == "" then "calido" else d.temperatura),
              MapEnumCapitalizing(d.humedad), MapEnumCapitalizing(d.suelo), MapEnumCapitalizing(d.propagacion),
              d.toxica == "si", OrOmit(d.imageUrl), OrOmit(d.nickname), OrOmit(d.locationInHome))
  }

  /** The body of the "Nueva planta" modal (its creation-date stamp is not modelled). */
  function NewPlantBody(d: FormData): (b: PlantBody)
    ensures b.toxicity <==> d.toxica == "si"
    ensures b.nickname.None? <==> d.nickname == ""
    ensures b.family == Some(d.familia) && b.imageUrl == Some(d.imageUrl)
    ensures b.locationInHome == Some(d.locationInHome)
    ensures b.riego == Some(d.riego) && b.cantidad == Some(d.cantidad)
  {
    PlantBody(d.nombre, Some(d.familia), MapEnumIdentity(d.cuidado), Some(d.riego), Some(d.cantidad),
              MapEnumIdentity(d.iluminacion), MapEnumIdentity(d.temperatura), MapEnumIdentity(d.humedad),
              MapEnumIdentity(d.suelo), MapEnumIdentity(d.propagacion),
              d.toxica == "si", Some(d.imageUrl), OrOmit(d.nickname), Some(d.locationInHome))
  }

  /**
   * On any data the schema accepts, the two copies send the same body:
   * table labels in every enumerated key, non-negative numbers, the
   * required texts present, and the nickname only when one was typed.
   */
  lemma BodiesAgreeOnValidData(isUrl: string -> bool, d: FormData)
    requires !isUrl("")
    requires WellFormed(isUrl, d)
    ensures var b := PlantsPageBody(d);
            && b == NewPlantBody(d)
            && b.nivelCuidado in EnumLabels.Values && b.iluminacion in EnumLabels.Values
            && b.temperatura in EnumLabels.Values && b.humedad in EnumLabels.Values
            && b.suelo in EnumLabels.Values && b.propagacion in EnumLabels.Values
            && b.riego.Some? && b.riego.value >= 0.0 && b.cantidad.Some? && b.cantidad.value >= 0.0
            && b.family.Some? && b.imageUrl.Some? && b.locationInHome.Some?
            && (b.nickname.None? <==> d.nickname == "")
  {
    EnumTokenLabelled(d.cuidado);
    EnumTokenLabelled(d.iluminacion);
    EnumTokenLabelled(d.temperatura);
    EnumTokenLabelled(d.humedad);
    EnumTokenLabelled(d.suelo);
    EnumTokenLabelled(d.propagacion);
    assert d.imageUrl != "";
  }

  // ---------- Reloading a saved plant into the edit form ----------

  /** `x || fallback` on an optional text. */
  function OrElse(o: Option<string>, fallback: string): (r: string)
    ensures o.Some? && o.value != "" ==> r == o.value
    ensures o.None? || o.value == "" ==> r == fallback
  {
    if o.Some? && o.value != "" then o.value else fallback
  }

  /**
   * `x === 0 || x ? String(x) : ""` read back by the numeric rule: a stored
   * number, 0 included, is reloaded as that number; only a missing one is blank.
   */
  function NumberField(o: Option<real>): (r: NumberInput)
    ensures o.Some? ==> Coerce(r) == (if o.value >= 0.0 then o else None)
    ensures o.None? ==> r == Blank
  {
    if o.Some? then Entered(o) else Blank
  }

  /**
   * The edit form's reset values for a saved plant; `token` turns a stored
   * label back into the value of its select or radio.
   */
  function Preload(initial: Plant, token: string -> string): (f: FormValues)
    ensures f.toxica in ToxicaTokens && (f.toxica == "si" <==> initial.toxicity == Some(true))
    ensures initial.temperatura.None? ==> f.temperatura == token("calido")
  {
    FormValues(
      OrElse(initial.nombreComun, ""),
      OrElse(initial.family, ""),
      token(OrElse(initial.nivelCuidado, "")),
      NumberField(initial.riego),
      NumberField(initial.cantidad),
      token(OrElse(initial.iluminacion, "")),
      token(OrElse(initial.temperatura, "calido")),
      token(OrElse(initial.humedad, "")),
      token(OrElse(initial.suelo, "")),
      token(OrElse(initial.propagacion, "")),
      if initial.toxicity == Some(true) then "si" else "no",
      OrElse(initial.imageUrl, ""),
      OrElse(initial.nickname, ""),
      OrElse(initial.locationInHome, ""))
  }

  /** As written: a stored label is only lower-cased. */
  function EditPreload(initial: Plant): FormValues {
    Preload(initial, Lower)
  }

  /** With the reverse table: a stored label is mapped back to its token. */
  function EditPreloadIntended(initial: Plant): FormValues {
    Preload(initial, TokenOf)
  }

  /** The plant the API holds after storing a body under `id` (it keeps what it was sent). */
  function Stored(id: string, b: PlantBody): Plant {
    Plant(Some(id), Some(b.nombreComun), b.family, Some(b.nivelCuidado), b.riego, b.cantidad,
          Some(b.iluminacion), Some(b.temperatura), Some(b.humedad), Some(b.suelo), Some(b.propagacion),
          Some(b.toxicity), b.imageUrl, b.nickname, b.locationInHome, None, None, None, None)
  }

  /**
   * Reopening a saved plant gives back every field that does not hold a
   * label exactly as it was saved, whatever `token` does with the labels.
   */
  lemma ReloadedTexts(isUrl: string -> bool, d: FormData, id: string, token: string -> string)
    requires !isUrl("")
    requires WellFormed(isUrl, d)
    ensures var b := PlantsPageBody(d);
            Preload(Stored(id, b), token)
            == Unparse(d).(cuidado := token(OrElse(Some(b.nivelCuidado), "")),
                           iluminacion := token(OrElse(Some(b.iluminacion), "")),
                           temperatura := token(OrElse(Some(b.temperatura), "calido")),
                           humedad := token(OrElse(Some(b.humedad), "")),
                           suelo := token(OrElse(Some(b.suelo), "")),
                           propagacion := token(OrElse(Some(b.propagacion), "")))
  {
    assert d.imageUrl != "";
  }

  /** A token of any of the six labelled enumerations has a table entry. */
  lemma EnumTokenLabelled(t: string)
    requires t in CuidadoTokens || t in IluminacionTokens || t in TemperaturaTokens
             || t in HumedadTokens || t in SueloTokens || t in PropagacionTokens
    ensures t in EnumLabels
    ensures MapEnumCapitalizing(t) == MapEnumIdentity(t) == EnumLabels[t] != ""
  {
  }

  /** As written, a stored label other than "Fácil" reloads as its token. */
  lemma LowerReloads(t: string, fallback: string)
    requires t in EnumLabels && t != "facil"
    ensures Lower(OrElse(Some(MapEnumCapitalizing(t)), fallback)) == t
  {
    LowerInvertsLabels(t);
  }

  /** With the reverse table, every stored label reloads as its token. */
  lemma TokenReloads(t: string, fallback: string)
    requires t in EnumLabels
    ensures TokenOf(OrElse(Some(MapEnumCapitalizing(t)), fallback)) == t
  {
    TokenOfInvertsLabels(t);
  }

  /**
   * Saving valid data and reopening the plant in the edit form gives the
   * form holding the same data, provided the care level is not "facil";
   * so saving again sends what was saved.
   */
  lemma EditPreloadRoundTrip(schema: Schema, isUrl: string -> bool, d: FormData, id: string)
    requires !isUrl("")
    requires WellFormed(isUrl, d)
    requires d.cuidado != "facil"
    ensures EditPreload(Stored(id, PlantsPageBody(d))) == Unparse(d)
    ensures Validate(schema, isUrl, EditPreload(Stored(id, PlantsPageBody(d)))) == Ok(d)
  {
    ReloadedTexts(isUrl, d, id, Lower);
    EnumTokenLabelled(d.cuidado);
    EnumTokenLabelled(d.iluminacion);
    EnumTokenLabelled(d.temperatura);
    EnumTokenLabelled(d.humedad);
    EnumTokenLabelled(d.suelo);
    EnumTokenLabelled(d.propagacion);
    LowerReloads(d.cuidado, "");
    LowerReloads(d.iluminacion, "");
    LowerReloads(d.temperatura, "calido");
    LowerReloads(d.humedad, "");
    LowerReloads(d.suelo, "");
    LowerReloads(d.propagacion, "");
    ValidateUnparse(schema, isUrl, d);
  }

  /**
   * As written, a plant saved with care level "facil" reopens with
   * "fácil" in the care-level field, and the form then refuses to save
   * until the user picks the level again.
   */
  lemma EditPreloadLosesFacil(schema: Schema, isUrl: string -> bool, d: FormData, id: string)
    requires d.cuidado == "facil"
    ensures var g := EditPreload(Stored(id, PlantsPageBody(d)));
            && g.cuidado == "fácil"
            && Validate(schema, isUrl, g).Err?
            && HasError(Validate(schema, isUrl, g).error, Cuidado)
  {
    var g := EditPreload(Stored(id, PlantsPageBody(d)));
    LowerInvertsLabels("facil");
    assert !FieldOk(isUrl, g, Cuidado);
  }

  /** With the reverse table, all valid data survive saving and reopening, "facil" included. */
  lemma EditPreloadIntendedRoundTrip(schema: Schema, isUrl: string -> bool, d: FormData, id: string)
    requires !isUrl("")
    requires WellFormed(isUrl, d)
    ensures EditPreloadIntended(Stored(id, PlantsPageBody(d))) == Unparse(d)
    ensures Validate(schema, isUrl, EditPreloadIntended(Stored(id, PlantsPageBody(d)))) == Ok(d)
  {
    ReloadedTexts(isUrl, d, id, TokenOf);
    EnumTokenLabelled(d.cuidado);
    EnumTokenLabelled(d.iluminacion);
    EnumTokenLabelled(d.temperatura);
    EnumTokenLabelled(d.humedad);
    EnumTokenLabelled(d.suelo);
    EnumTokenLabelled(d.propagacion);
    TokenReloads(d.cuidado, "");
    TokenReloads(d.iluminacion, "");
    TokenReloads(d.temperatura, "calido");
    TokenReloads(d.humedad, "");
    TokenReloads(d.suelo, "");
    TokenReloads(d.propagacion, "");
    ValidateUnparse(schema, isUrl, d);
  }

  // ---------- Submitting ----------

  /** The observable steps of a submit, in order. */
  datatype Effect =
    | ShowErrors(errors: seq<FieldError>)
    | Send(request: Request, body: PlantBody)
    | Alert(message: string)
    | CallSaved(plant: Option<Plant>)
    | CallClose
    | ResetForm
}
