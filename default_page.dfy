/**
 * The landing page: the image carousel, the login and registration rules,
 * and the modal / server-error state that the two submits drive.
 */
module DefaultPage {
  import opened Wrappers
  import opened Text
  import opened AuthContext

  // ---------- Carousel ----------

  /** The carousel's three images. */
  const ImageCount: nat := 3

  /** `(prev + 1) % n`: the next image, wrapping from the last to the first. */
  function NextImage(i: int, n: nat): (r: int)
    requires n > 0 && 0 <= i < n
    ensures 0 <= r < n
    ensures i < n - 1 ==> r == i + 1
    ensures i == n - 1 ==> r == 0
  {
    (i + 1) % n
  }

  /** `(prev - 1 + n) % n`: the previous image, wrapping from the first to the last. */
  function PreviousImage(i: int, n: nat): (r: int)
    requires n > 0 && 0 <= i < n
    ensures 0 <= r < n
    ensures i > 0 ==> r == i - 1
    ensures i == 0 ==> r == n - 1
  {
    (i - 1 + n) % n
  }

  /** "Anterior" undoes "Siguiente" and the other way round. */
  lemma CarouselInverse(i: int, n: nat)
    requires n > 0 && 0 <= i < n
    ensures PreviousImage(NextImage(i, n), n) == i
    ensures NextImage(PreviousImage(i, n), n) == i
  {
  }

  /**
   * Where `x` steps from the first image land on a ring of `n` images:
   * whole turns taken off by repeated subtraction.
   */
  function Wrap(x: nat, n: nat): (r: nat)
    requires n > 0
    ensures r < n
    decreases x
  {
    if x < n then x else Wrap(x - n, n)
  }

  /** The image after `k` presses of "Siguiente". */
  function Advance(i: int, n: nat, k: nat): (r: int)
    requires n > 0 && 0 <= i < n
    ensures 0 <= r < n
  {
    if k == 0 then i else NextImage(Advance(i, n, k - 1), n)
  }

  /** One more step from a wrapped position is the next image. */
  lemma {:induction false} WrapStep(x: nat, n: nat)
    requires n > 0
    ensures NextImage(Wrap(x, n), n) == Wrap(x + 1, n)
  {
    if x >= n {
      WrapStep(x - n, n);
    }
  }

  /** `k` presses of "Siguiente" move `k` places round the ring. */
  lemma {:induction false} AdvanceWraps(i: int, n: nat, k: nat)
    requires n > 0 && 0 <= i < n
    ensures Advance(i, n, k) == Wrap(i + k, n)
  {
    if k > 0 {
      AdvanceWraps(i, n, k - 1);
      WrapStep(i + k - 1, n);
    }
  }

  /** After one press per image the carousel is back where it started. */
  lemma FullTurn(i: int, n: nat)
    requires n > 0 && 0 <= i < n
    ensures Advance(i, n, n) == i
  {
    AdvanceWraps(i, n, n);
  }

  // ---------- Login and registration rules ----------

  /** A message the resolver shows under a field (the first failed check of that field). */
  datatype Issue = Issue(path: string, message: string)

  const BadEmail: string := "Correo inválido"
  const PasswordTooShort: string := "Mínimo 6 caracteres"
  const PasswordTooLong: string := "Máximo 64 caracteres"
  const NameTooShort: string := "Nombre muy corto"
  const NameTooLong: string := "Nombre muy largo"
  /** The number rule's own message for a value `Number()` turned into NaN. */
  const AgeNotANumber: string := "Expected number, received nan"
  const AgeNotInteger: string := "Edad inválida"
  const AgeTooLow: string := "Debes tener al menos 13 años"
  const AgeTooHigh: string := "Edad fuera de rango"

  const ClimaTokens: seq<string> := ["humedo", "seco"]
  const ZonaTokens: seq<string> := ["costa", "montaña", "ciudad", "rural"]
  const EspacioTokens: seq<string> := ["balcon", "patio", "interior", "terraza"]
  const MascotaTokens: seq<string> := ["si", "no"]
  const ExperienciaTokens: seq<string> := ["principiante", "intermedio", "avanzado"]

  /** The login form's values. */
  datatype LoginValues = LoginValues(email: string, password: string)

  const LoginDefaults: LoginValues := LoginValues("", "")

  /**
   * The registration form's values. `edad` is what `Number()` made of the
   * input (`None` for NaN); `mascota` is the checked radio, if any.
   */
  datatype RegisterValues = RegisterValues(
    email: string,
    password: string,
    nombre: string,
    edad: Option<real>,
    tipoClima: string,
    zonaGeo: string,
    espacio: string,
    mascota: Option<string>,
    experiencia: string)

  const RegisterDefaults: RegisterValues :=
    RegisterValues("", "", "", Some(18.0), "", "", "", None, "")

  /** One field's entry in the error list, if it has a message. */
  function Report(path: string, message: Option<string>): (r: seq<Issue>)
    ensures message.None? ==> r == []
    ensures message.Some? ==> r == [Issue(path, message.value)]
  {
    if message.Some? then [Issue(path, message.value)] else []
  }

  predicate HasIssue(issues: seq<Issue>, path: string) {
    exists e :: e in issues && e.path == path
  }

  function EmailIssue(isEmail: string -> bool, email: string): (r: Option<string>)
    ensures r.None? <==> isEmail(email)
    ensures r.Some? ==> r.value == BadEmail
  {
    if isEmail(email) then None else Some(BadEmail)
  }

  /** The login password: at least six characters. */
  function LoginPasswordIssue(password: string): (r: Option<string>)
    ensures r.None? <==> |password| >= 6
    ensures r.Some? ==> r.value == PasswordTooShort
  {
    if |password| < 6 then Some(PasswordTooShort) else None
  }

  /** The registration password: six to sixty-four characters, the short check first. */
  function RegisterPasswordIssue(password: string): (r: Option<string>)
    ensures r.None? <==> 6 <= |password| <= 64
    ensures |password| < 6 ==> r == Some(PasswordTooShort)
    ensures |password| > 64 ==> r == Some(PasswordTooLong)
  {
    if |password| < 6 then Some(PasswordTooShort)
    else if |password| > 64 then Some(PasswordTooLong)
    else None
  }

  /** The name, measured after trimming: two to eighty characters. */
  function NameIssue(nombre: string): (r: Option<string>)
    ensures r.None? <==> 2 <= |Trim(nombre)| <= 80
    ensures |Trim(nombre)| < 2 ==> r == Some(NameTooShort)
    ensures |Trim(nombre)| > 80 ==> r == Some(NameTooLong)
  {
    var t := Trim(nombre);
    if |t| < 2 then Some(NameTooShort)
    else if |t| > 80 then Some(NameTooLong)
    else None
  }

  /** A whole number of years from 13 to 120. */
  predicate ValidAge(edad: Option<real>) {
    edad.Some? && edad.value.Floor as real == edad.value && 13.0 <= edad.value <= 120.0
  }

  /**
   * The coerced age: NaN fails the number rule itself; a number gets the
   * first of its integer, minimum and maximum checks that fails.
   */
  function AgeIssue(edad: Option<real>): (r: Option<string>)
    ensures r.None? <==> ValidAge(edad)
    ensures edad.None? ==> r == Some(AgeNotANumber)
    ensures edad.Some? && edad.value.Floor as real != edad.value ==> r == Some(AgeNotInteger)
    ensures edad.Some? && edad.value.Floor as real == edad.value && edad.value < 13.0 ==> r == Some(AgeTooLow)
    ensures edad.Some? && edad.value.Floor as real == edad.value && edad.value > 120.0 ==> r == Some(AgeTooHigh)
  {
    match edad
    case None => Some(AgeNotANumber)
    case Some(v) =>
      if v.Floor as real != v then Some(AgeNotInteger)
      else if v < 13.0 then Some(AgeTooLow)
      else if v > 120.0 then Some(AgeTooHigh)
      else None
  }

  /** An enumeration: any value outside its tokens (absent included) gets the field's one message. */
  function ChoiceIssue(value: Option<string>, tokens: seq<string>, message: string): (r: Option<string>)
    ensures r.None? <==> value.Some? && value.value in tokens
    ensures r.Some? ==> r.value == message
  {
    if value.Some? && value.value in tokens then None else Some(message)
  }

  /** What the login rules accept. */
  predicate ValidLogin(isEmail: string -> bool, v: LoginValues) {
    isEmail(v.email) && |v.password| >= 6
  }

  /** The login errors, email first. */
  function LoginIssues(isEmail: string -> bool, v: LoginValues): (r: seq<Issue>)
    ensures r == [] <==> ValidLogin(isEmail, v)
    ensures Issue("email", BadEmail) in r <==> !isEmail(v.email)
    ensures Issue("password", PasswordTooShort) in r <==> |v.password| < 6
    ensures forall e :: e in r ==> e == Issue("email", BadEmail) || e == Issue("password", PasswordTooShort)
  {
    Report("email", EmailIssue(isEmail, v.email)) + Report("password", LoginPasswordIssue(v.password))
  }

  /** What the registration rules accept. */
  predicate ValidRegistration(isEmail: string -> bool, v: RegisterValues) {
    && isEmail(v.email)
    && 6 <= |v.password| <= 64
    && 2 <= |Trim(v.nombre)| <= 80
    && ValidAge(v.edad)
    && v.tipoClima in ClimaTokens
    && v.zonaGeo in ZonaTokens
    && v.espacio in EspacioTokens
    && v.mascota.Some? && v.mascota.value in MascotaTokens
    && v.experiencia in ExperienciaTokens
  }

  /** Each registration field's message, if any, in the schema's order. */
  function RegisterFieldIssues(isEmail: string -> bool, v: RegisterValues): seq<(string, Option<string>)> {
    [("email", EmailIssue(isEmail, v.email)),
     ("password", RegisterPasswordIssue(v.password)),
     ("nombre", NameIssue(v.nombre)),
     ("edad", AgeIssue(v.edad)),
     ("tipoClima", ChoiceIssue(Some(v.tipoClima), ClimaTokens, "Selecciona un clima")),
     ("zonaGeo", ChoiceIssue(Some(v.zonaGeo), ZonaTokens, "Selecciona una zona")),
     ("espacio", ChoiceIssue(Some(v.espacio), EspacioTokens, "Selecciona un espacio")),
     ("mascota", ChoiceIssue(v.mascota, MascotaTokens, "Indica si tienes mascotas")),
     ("experiencia", ChoiceIssue(Some(v.experiencia), ExperienciaTokens, "Selecciona tu nivel"))]
  }

  /** The reports of the given fields, in order. */
  function Collect(fields: seq<(string, Option<string>)>): (r: seq<Issue>)
    ensures |r| <= |fields|
    ensures forall e :: e in r <==> (e.path, Some(e.message)) in fields
  {
    if fields == [] then []
    else Report(fields[0].0, fields[0].1) + Collect(fields[1..])
  }

  /** A field with a message is reported under its own path. */
  lemma Reported(fields: seq<(string, Option<string>)>, k: nat)
    requires k < |fields| && fields[k].1.Some?
    ensures Issue(fields[k].0, fields[k].1.value) in Collect(fields)
  {
    assert (fields[k].0, Some(fields[k].1.value)) == fields[k];
  }

  /** A path whose fields all pass is not reported. */
  lemma NotReported(fields: seq<(string, Option<string>)>, path: string)
    requires forall k :: 0 <= k < |fields| && fields[k].0 == path ==> fields[k].1.None?
    ensures !HasIssue(Collect(fields), path)
  {
  }

  /** With no field failing nothing is reported. */
  lemma {:induction false} NoneReported(fields: seq<(string, Option<string>)>)
    requires forall k :: 0 <= k < |fields| ==> fields[k].1.None?
    ensures Collect(fields) == []
  {
    if fields != [] {
      assert forall k :: 0 <= k < |fields[1..]| ==> fields[1..][k] == fields[k + 1];
      NoneReported(fields[1..]);
    }
  }

  /**
   * The registration errors: every failing field reports its own message,
   * whatever the others hold.
   */
  function RegisterIssues(isEmail: string -> bool, v: RegisterValues): (r: seq<Issue>)
    ensures forall e :: e in r <==> (e.path, Some(e.message)) in RegisterFieldIssues(isEmail, v)
    ensures |r| <= 9
  {
    Collect(RegisterFieldIssues(isEmail, v))
  }

  /** The registration errors are empty exactly when every rule holds. */
  lemma RegisterIssuesEmptyIff(isEmail: string -> bool, v: RegisterValues)
    ensures RegisterIssues(isEmail, v) == [] <==> ValidRegistration(isEmail, v)
  {
    var fields := RegisterFieldIssues(isEmail, v);
    if ValidRegistration(isEmail, v) {
      NoneReported(fields);
    } else {
      var k: nat :=
        if !isEmail(v.email) then 0
        else if !(6 <= |v.password| <= 64) then 1
        else if !(2 <= |Trim(v.nombre)| <= 80) then 2
        else if !ValidAge(v.edad) then 3
        else if v.tipoClima !in ClimaTokens then 4
        else if v.zonaGeo !in ZonaTokens then 5
        else if v.espacio !in EspacioTokens then 6
        else if !(v.mascota.Some? && v.mascota.value in MascotaTokens) then 7
        else 8;
      Reported(fields, k);
    }
  }

  /** The field messages of a blank registration form with a valid age. */
  lemma BlankFieldMessages(isEmail: string -> bool, v: RegisterValues)
    requires !isEmail("")
    requires v.email == "" && v.password == "" && v.nombre == "" && v.experiencia == ""
    requires v.mascota.None? && ValidAge(v.edad)
    ensures var fields := RegisterFieldIssues(isEmail, v);
            && fields[0] == ("email", Some(BadEmail))
            && fields[1] == ("password", Some(PasswordTooShort))
            && fields[2] == ("nombre", Some(NameTooShort))
            && fields[3] == ("edad", None)
            && fields[7] == ("mascota", Some("Indica si tienes mascotas"))
            && fields[8] == ("experiencia", Some("Selecciona tu nivel"))
            && (v.tipoClima == "" ==> fields[4] == ("tipoClima", Some("Selecciona un clima")))
            && (v.zonaGeo == "" ==> fields[5] == ("zonaGeo", Some("Selecciona una zona")))
            && (v.espacio == "" ==> fields[6] == ("espacio", Some("Selecciona un espacio")))
  {
    assert Trim("") == "";
  }

  /**
   * A blank registration form with a valid age (as the defaults are: empty
   * texts, the unchecked radio and 18) fails the e-mail, password, name,
   * pet and experience rules, and each of the climate, zone and space
   * choices that is left unselected; the age is not reported.
   */
  lemma BlankRegistrationIssues(isEmail: string -> bool, v: RegisterValues)
    requires !isEmail("")
    requires v.email == "" && v.password == "" && v.nombre == "" && v.experiencia == ""
    requires v.mascota.None? && ValidAge(v.edad)
    ensures var r := RegisterIssues(isEmail, v);
            && !HasIssue(r, "edad")
            && Issue("email", BadEmail) in r
            && Issue("password", PasswordTooShort) in r
            && Issue("nombre", NameTooShort) in r
            && Issue("mascota", "Indica si tienes mascotas") in r
            && Issue("experiencia", "Selecciona tu nivel") in r
            && (v.tipoClima == "" ==> Issue("tipoClima", "Selecciona un clima") in r)
            && (v.zonaGeo == "" ==> Issue("zonaGeo", "Selecciona una zona") in r)
            && (v.espacio == "" ==> Issue("espacio", "Selecciona un espacio") in r)
  {
    var fields := RegisterFieldIssues(isEmail, v);
    var r := Collect(fields);
    assert Issue("email", BadEmail) in r by { BlankFieldMessages(isEmail, v); Reported(fields, 0); }
    assert Issue("password", PasswordTooShort) in r by { BlankFieldMessages(isEmail, v); Reported(fields, 1); }
    assert Issue("nombre", NameTooShort) in r by { BlankFieldMessages(isEmail, v); Reported(fields, 2); }
    assert Issue("mascota", "Indica si tienes mascotas") in r by {
      BlankFieldMessages(isEmail, v);
      Reported(fields, 7);
    }
    assert Issue("experiencia", "Selecciona tu nivel") in r by {
      BlankFieldMessages(isEmail, v);
      Reported(fields, 8);
    }
    assert v.tipoClima == "" ==> Issue("tipoClima", "Selecciona un clima") in r by {
      BlankFieldMessages(isEmail, v);
      if v.tipoClima == "" { Reported(fields, 4); }
    }
    assert v.zonaGeo == "" ==> Issue("zonaGeo", "Selecciona una zona") in r by {
      BlankFieldMessages(isEmail, v);
      if v.zonaGeo == "" { Reported(fields, 5); }
    }
    assert v.espacio == "" ==> Issue("espacio", "Selecciona un espacio") in r by {
      BlankFieldMessages(isEmail, v);
      if v.espacio == "" { Reported(fields, 6); }
    }
    assert !HasIssue(r, "edad") by { AgeReported(isEmail, v); }
  }

  /**
   * The age is reported exactly when it fails, with its own message,
   * whatever the other fields hold.
   */
  lemma AgeReported(isEmail: string -> bool, v: RegisterValues)
    ensures HasIssue(RegisterIssues(isEmail, v), "edad") <==> !ValidAge(v.edad)
    ensures !ValidAge(v.edad) ==> Issue("edad", AgeIssue(v.edad).value) in RegisterIssues(isEmail, v)
  {
    var fields := RegisterFieldIssues(isEmail, v);
    if ValidAge(v.edad) {
      NotReported(fields, "edad");
    } else {
      Reported(fields, 3);
    }
  }

  /** The registration defaults are such a form. */
  lemma RegisterDefaultsBlank()
    ensures RegisterDefaults.email == "" && RegisterDefaults.password == "" && RegisterDefaults.nombre == ""
    ensures RegisterDefaults.experiencia == "" && RegisterDefaults.mascota.None? && ValidAge(RegisterDefaults.edad)
    ensures RegisterDefaults.tipoClima == "" && RegisterDefaults.zonaGeo == "" && RegisterDefaults.espacio == ""
  {
    assert 18.0.Floor == 18;
  }

  // ---------- Modal and server error ----------

  datatype ModalKind = Registro | Login

  /** What the landing page shows over the carousel. */
  datatype Screen = Screen(modal: Option<ModalKind>, serverError: string)

  /** `cerrarModal`'s effect on the screen (the two forms are reset beside it). */
  const Closed: Screen := Screen(None, "")

  /**
   * The login endpoint's answer: unreadable (with the thrown message), or a
   * status with the body's `error` (if any), `message` ("" when absent) and `token`.
   */
  datatype LoginReply =
    | LoginUnreadable(thrown: string)
    | LoginAnswer(ok: bool, error: Option<string>, message: string, token: Option<string>)

  const LoginFallback: string := "Error de login"
  const LoginThrownFallback: string := "No se pudo iniciar sesión"

  /**
   * The screen `onLogin` evidently means to leave: closed after a login
   * that went through; otherwise the modal still open with the server's
   * `message` or its fallback for a refusal, or with the text of the error
   * thrown on the way (`thrownText`, the decoder's for a token it refuses).
   */
  function LoginScreenIntended(before: Screen, reply: LoginReply, decodes: bool, thrownText: string)
    : (after: Screen)
    ensures reply.LoginAnswer? && reply.ok && reply.token.Some? && decodes ==> after == Closed
    ensures !(reply.LoginAnswer? && reply.ok && reply.token.Some? && decodes) ==>
              after.modal == before.modal && after.serverError != ""
    ensures reply.LoginAnswer? && !reply.ok ==>
              after.serverError == (if reply.message != "" then reply.message else LoginFallback)
    ensures reply.LoginUnreadable? ==>
              after.serverError == (if reply.thrown != "" then reply.thrown else LoginThrownFallback)
  {
    match reply
    case LoginUnreadable(m) => before.(serverError := if m != "" then m else LoginThrownFallback)
    case LoginAnswer(ok, _, message, token) =>
      if !ok then before.(serverError := if message != "" then message else LoginFallback)
      else if token.None? || !decodes then
        before.(serverError := if thrownText != "" then thrownText else LoginThrownFallback)
      else Closed
  }

  /**
   * What the close at the end of `onLogin` erases: for a refused login in
   * the open login modal, the intended screen keeps the modal and shows an
   * error, where the closed screen has neither.
   */
  lemma RefusedLoginErased(before: Screen, error: Option<string>, message: string, thrownText: string)
    requires before.modal == Some(Login)
    ensures var intended := LoginScreenIntended(before, LoginAnswer(false, error, message, None), true, thrownText);
            && intended != Closed
            && intended == Screen(Some(Login), if message != "" then message else LoginFallback)
  {
  }

  /** The registration endpoint's answer: unreadable, accepted, or refused with a `message` ("" when absent). */
  datatype RegisterReply = RegisterUnreadable(thrown: string) | Registered | RegisterRefused(message: string)

  const RegisterFallback: string := "Error de registro"
  const RegisterThrownFallback: string := "No se pudo registrar"

  /** The screen after `onRegister`: closed on success, otherwise still open with the error. */
  function RegisterScreen(before: Screen, reply: RegisterReply): (after: Screen)
    ensures reply.Registered? ==> after == Closed
    ensures !reply.Registered? ==> after.modal == before.modal && after.serverError != ""
    ensures reply.RegisterRefused? ==>
              after.serverError == (if reply.message != "" then reply.message else RegisterFallback)
    ensures reply.RegisterUnreadable? ==>
              after.serverError == (if reply.thrown != "" then reply.thrown else RegisterThrownFallback)
  {
    match reply
    case Registered => Closed
    case RegisterRefused(message) => before.(serverError := if message != "" then message else RegisterFallback)
    case RegisterUnreadable(m) => before.(serverError := if m != "" then m else RegisterThrownFallback)
  }

  /** The page's state. */
  class Page {
    var imagenActual: int
    var screen: Screen
    var loginValues: LoginValues
    var registerValues: RegisterValues

    /** The carousel index stays on an image. */
    predicate Valid()
      reads this
    {
      0 <= imagenActual < ImageCount
    }

    constructor ()
      ensures Valid() && imagenActual == 0 && screen == Closed
      ensures loginValues == LoginDefaults && registerValues == RegisterDefaults
    {
      imagenActual := 0;
      screen := Closed;
      loginValues := LoginDefaults;
      registerValues := RegisterDefaults;
    }

    /** "Siguiente". */
    method NextPressed()
      requires Valid()
      modifies this
      ensures Valid() && imagenActual == NextImage(old(imagenActual), ImageCount)
      ensures screen == old(screen) && loginValues == old(loginValues) && registerValues == old(registerValues)
    {
      imagenActual := (imagenActual + 1) % ImageCount;
    }

    /** "Anterior". */
    method PreviousPressed()
      requires Valid()
      modifies this
      ensures Valid() && imagenActual == PreviousImage(old(imagenActual), ImageCount)
      ensures screen == old(screen) && loginValues == old(loginValues) && registerValues == old(registerValues)
    {
      imagenActual := (imagenActual - 1 + ImageCount) % ImageCount;
    }

    /** `abrirModal(tipo)`: the modal opens with no error shown. */
    method OpenModal(kind: ModalKind)
      modifies this
      ensures screen == Screen(Some(kind), "")
      ensures imagenActual == old(imagenActual)
      ensures loginValues == old(loginValues) && registerValues == old(registerValues)
    {
      screen := screen.(serverError := "");
      screen := screen.(modal := Some(kind));
    }

    /** `cerrarModal`: no modal, no error, and both forms back to their defaults. */
    method CloseModal()
      modifies this
      ensures screen == Closed
      ensures loginValues == LoginDefaults && registerValues == RegisterDefaults
      ensures imagenActual == old(imagenActual)
    {
      screen := screen.(modal := None);
      screen := screen.(serverError := "");
      loginValues := LoginDefaults;
      registerValues := RegisterDefaults;
    }

    /**
     * `onLogin` as written: a refused answer is alerted with the body's
     * `error` (shown as "undefined" when absent); an accepted one hands its
     * token to the session provider and, if that does not throw, navigates
     * home; whatever happened, the modal then closes and both forms reset.
     */
    method OnLogin(auth: AuthProvider, reply: LoginReply, decode: string -> Option<Claims>)
      returns (alerts: seq<string>, navigated: bool)
      modifies this, auth, auth.storage
      ensures screen == Closed && loginValues == LoginDefaults && registerValues == RegisterDefaults
      ensures alerts == (if reply.LoginAnswer? && !reply.ok then [reply.error.GetOr("undefined")] else [])
      ensures navigated <==> reply.LoginAnswer? && reply.ok && reply.token.Some? && decode(reply.token.value).Some?
      ensures reply.LoginAnswer? && reply.ok ==> auth.storage.token == Some(reply.token.GetOr("undefined"))
      ensures navigated ==> auth.user == decode(reply.token.value)
      ensures !navigated ==> auth.user == old(auth.user)
      ensures !(reply.LoginAnswer? && reply.ok) ==> auth.storage.token == old(auth.storage.token)
      ensures auth.token == old(auth.token) && auth.loading == old(auth.loading)
      ensures imagenActual == old(imagenActual)
    {
      screen := screen.(serverError := "");
      alerts, navigated := [], false;
      // The message each `catch` below would show is cleared by the close that follows it.
      match reply {
        case LoginUnreadable(_) =>
        case LoginAnswer(ok, error, _, token) =>
          if !ok {
            alerts := [error.GetOr("undefined")];
          } else {
            var thrown := auth.Login(token, decode);
            if !thrown {
              navigated := true;
              CloseModal();
            }
          }
      }
      CloseModal();
    }

    /**
     * `onLogin` as evidently intended: the same requests and session
     * update, but the modal closes only after a login that went through;
     * otherwise it stays open and shows the error.
     */
    method OnLoginIntended(auth: AuthProvider, reply: LoginReply, decode: string -> Option<Claims>,
                           thrownText: string)
      returns (alerts: seq<string>, navigated: bool)
      modifies this, auth, auth.storage
      ensures var decodes := reply.LoginAnswer? && reply.token.Some? && decode(reply.token.value).Some?;
              screen == LoginScreenIntended(old(screen), reply, decodes, thrownText)
      ensures navigated ==> screen == Closed && loginValues == LoginDefaults && registerValues == RegisterDefaults
      ensures !navigated ==> loginValues == old(loginValues) && registerValues == old(registerValues)
      ensures alerts == (if reply.LoginAnswer? && !reply.ok then [reply.error.GetOr("undefined")] else [])
      ensures navigated <==> reply.LoginAnswer? && reply.ok && reply.token.Some? && decode(reply.token.value).Some?
      ensures reply.LoginAnswer? && reply.ok ==> auth.storage.token == Some(reply.token.GetOr("undefined"))
      ensures navigated ==> auth.user == decode(reply.token.value)
      ensures !navigated ==> auth.user == old(auth.user)
      ensures !(reply.LoginAnswer? && reply.ok) ==> auth.storage.token == old(auth.storage.token)
      ensures auth.token == old(auth.token) && auth.loading == old(auth.loading)
      ensures imagenActual == old(imagenActual)
    {
      screen := screen.(serverError := "");
      alerts, navigated := [], false;
      match reply {
        case LoginUnreadable(m) =>
          screen := screen.(serverError := if m != "" then m else LoginThrownFallback);
        case LoginAnswer(ok, error, message, token) =>
          if !ok {
            alerts := [error.GetOr("undefined")];
            screen := screen.(serverError := if message != "" then message else LoginFallback);
          } else {
            var thrown := auth.Login(token, decode);
            if thrown {
              screen := screen.(serverError := if thrownText != "" then thrownText else LoginThrownFallback);
            } else {
              navigated := true;
              CloseModal();
            }
          }
      }
    }

    /**
     * `onRegister`: success closes the modal and resets both forms; a
     * refused or unreadable answer leaves the modal open with its message.
     */
    method OnRegister(reply: RegisterReply)
      modifies this
      ensures screen == RegisterScreen(old(screen), reply)
      ensures reply.Registered? ==> loginValues == LoginDefaults && registerValues == RegisterDefaults
      ensures !reply.Registered? ==> loginValues == old(loginValues) && registerValues == old(registerValues)
      ensures imagenActual == old(imagenActual)
    {
      screen := screen.(serverError := "");
      match reply {
        case Registered =>
          CloseModal();
        case RegisterRefused(message) =>
          screen := screen.(serverError := if message != "" then message else RegisterFallback);
        case RegisterUnreadable(m) =>
          screen := screen.(serverError := if m != "" then m else RegisterThrownFallback);
      }
    }
  }
}
