/** The profile-completion page: its own copy of the age and completeness
    checks, the CUIT and date string helpers, the form's validity rules
    (which depend on the age), and the component that loads the existing
    patient, pre-fills the form, searches localities and submits the profile.
    The current user, the store's answers and "today" are parameters. */
module CompleteProfile {
  import opened Common
  import opened Models
  import opened Pacientes

  // ---------------------------------------------------------------------
  // The component's copies of the age and completeness checks

  /** The component's own `calcularEdad`. */
  function EdadFormulario(fechaNacimiento: JsDate, hoy: JsDate): int
  {
    var edad := hoy.year - fechaNacimiento.year;
    var mes := hoy.month - fechaNacimiento.month;
    if mes < 0 || (mes == 0 && hoy.day < fechaNacimiento.day) then edad - 1 else edad
  }

  /** The component's copy computes the same age as the patient service. */
  lemma EdadFormularioAgrees(fechaNacimiento: JsDate, hoy: JsDate)
    ensures EdadFormulario(fechaNacimiento, hoy) == CalcularEdad(fechaNacimiento, hoy)
  {
  }

  /** The redirect condition of `cargarDatosPaciente`, in the component's
      shape: the basic fields, then `!esMayor || (iva && cuit)`. */
  predicate PerfilCompletoFormulario(p: Paciente, hoy: JsDate, parse: string -> JsDate)
  {
    var camposBasicosCompletos := CamposBasicosCompletos(p);
    var esMayor := EdadFormulario(parse(p.fecha_nacimiento), hoy) >= 18;
    camposBasicosCompletos && (!esMayor || (IdTruthy(p.condicion_iva_id) && OptTruthy(p.cuit)))
  }

  /** The page redirects to the dashboard exactly for the patients the
      service (and so the profile guard) calls complete. */
  lemma PerfilCompletoFormularioAgrees(p: Paciente, hoy: JsDate, parse: string -> JsDate)
    ensures PerfilCompletoFormulario(p, hoy, parse) <==> PerfilCompleto(Some(p), hoy, parse)
  {
    EdadFormularioAgrees(parse(p.fecha_nacimiento), hoy);
  }

  // ---------------------------------------------------------------------
  // CUIT strings

  /** `s.replace(/-/g, '')`: s without its dashes, every other character
      kept in order. */
  function StripDashes(s: string): (r: string)
    ensures forall i :: 0 <= i < |r| ==> r[i] != '-'
    ensures |r| <= |s|
  {
    if s == [] then []
    else
      var rest := StripDashes(s[1..]);
      assert s == [s[0]] + s[1..];
      if s[0] == '-' then rest else [s[0]] + rest
  }

  /** Stripping distributes over concatenation. */
  lemma {:induction false} StripDashesConcat(a: string, b: string)
    ensures StripDashes(a + b) == StripDashes(a) + StripDashes(b)
  {
    if a == [] {
      assert a + b == b;
    } else {
      assert (a + b)[0] == a[0];
      assert (a + b)[1..] == a[1..] + b;
      StripDashesConcat(a[1..], b);
    }
  }

  /** A string without dashes is left as it is. */
  lemma {:induction false} StripDashesNoDash(s: string)
    requires forall i :: 0 <= i < |s| ==> s[i] != '-'
    ensures StripDashes(s) == s
  {
    if s != [] {
      StripDashesNoDash(s[1..]);
    }
  }

  /** Stripping twice is stripping once. */
  lemma StripDashesIdempotent(s: string)
    ensures StripDashes(StripDashes(s)) == StripDashes(s)
  {
    StripDashesNoDash(StripDashes(s));
  }

  /** The form's CUIT pattern `^\d{2}-\d{8}-\d{1}$`. */
  predicate CuitPattern(s: string)
  {
    |s| == 13 && AllDigits(s[..2]) && s[2] == '-' && AllDigits(s[3..11]) && s[11] == '-' && IsDigit(s[12])
  }

  /** `formatCuit`: when the string has 11 characters besides its dashes,
      those characters as `dd-dddddddd-d`; otherwise the input unchanged. */
  function FormatCuit(cuit: string): (r: string)
    ensures |StripDashes(cuit)| == 11 ==>
              |r| == 13 && r[2] == '-' && r[11] == '-' && r[..2] + r[3..11] + r[12..] == StripDashes(cuit)
    ensures |StripDashes(cuit)| != 11 ==> r == cuit
  {
    var digits := StripDashes(cuit);
    if |digits| == 11 then digits[..2] + "-" + digits[2..10] + "-" + digits[10..] else cuit
  }

  /** Eleven digits, however dashed, come out in the pattern's shape. */
  lemma FormatCuitMatchesPattern(cuit: string)
    requires |StripDashes(cuit)| == 11 && AllDigits(StripDashes(cuit))
    ensures CuitPattern(FormatCuit(cuit))
  {
    var d := StripDashes(cuit);
    var r := FormatCuit(cuit);
    assert r[..2] == d[..2];
    assert r[3..11] == d[2..10];
    assert r[12] == d[10];
  }

  /** Stripping the formatted CUIT, as the submit does, gives back the
      stripped input: formatting only moves dashes. */
  lemma FormatCuitStripsBack(cuit: string)
    ensures StripDashes(FormatCuit(cuit)) == StripDashes(cuit)
  {
    var d := StripDashes(cuit);
    if |d| == 11 {
      var a, b, c := d[..2], d[2..10], d[10..];
      StripDashesConcat(a + "-" + b + "-", c);
      StripDashesConcat(a + "-" + b, "-");
      StripDashesConcat(a + "-", b);
      StripDashesConcat(a, "-");
      StripDashesNoDash(a);
      StripDashesNoDash(b);
      StripDashesNoDash(c);
      assert StripDashes("-") == [];
      assert a + b + c == d;
    }
  }

  /** Formatting a formatted CUIT changes nothing. */
  lemma FormatCuitIdempotent(cuit: string)
    ensures FormatCuit(FormatCuit(cuit)) == FormatCuit(cuit)
  {
    FormatCuitStripsBack(cuit);
  }

  /** A CUIT already in the pattern's shape is its own formatting, and its
      stripped form is its 11 digits. */
  lemma PatternIsFormatted(s: string)
    requires CuitPattern(s)
    ensures |StripDashes(s)| == 11 && AllDigits(StripDashes(s))
    ensures FormatCuit(s) == s
  {
    var a, b, c := s[..2], s[3..11], s[12..];
    assert s == a + "-" + b + "-" + c;
    StripDashesConcat(a + "-" + b + "-", c);
    StripDashesConcat(a + "-" + b, "-");
    StripDashesConcat(a + "-", b);
    StripDashesConcat(a, "-");
    StripDashesNoDash(a);
    StripDashesNoDash(b);
    StripDashesNoDash(c);
    assert StripDashes("-") == [];
    var d := a + b + c;
    assert StripDashes(s) == d;
    assert d[..2] == a && d[2..10] == b && d[10..] == c;
  }

  /** A stored CUIT of 11 digits survives being pre-filled (formatted) and
      submitted (stripped) unchanged. */
  lemma StoredCuitSurvivesEdit(stored: string)
    requires |stored| == 11 && AllDigits(stored)
    ensures StripDashes(FormatCuit(stored)) == stored
  {
    FormatCuitStripsBack(stored);
    StripDashesNoDash(stored);
  }

  // ---------------------------------------------------------------------
  // Dates

  /** `formatDate`: `year-MM-DD` from the Date's fields, the 0-based month
      shifted by one, month and day padded to two digits. */
  function FormatDate(date: JsDate): (r: string)
    ensures IntToString(date.year) + "-" <= r
    ensures CalendarFields(date) ==>
              && |r| == |IntToString(date.year)| + 6 && r[..|r| - 6] == IntToString(date.year)
              && r[|r| - 6] == '-' && r[|r| - 3] == '-'
              && AllDigits(r[|r| - 5..|r| - 3]) && DigitsToInt(r[|r| - 5..|r| - 3]) == date.month + 1
              && AllDigits(r[|r| - 2..]) && DigitsToInt(r[|r| - 2..]) == date.day
  {
    var y := IntToString(date.year);
    var m := PadStart2(IntToString(date.month + 1));
    var d := PadStart2(IntToString(date.day));
    var s := y + "-" + m + "-" + d;
    // in calendar range both padded fields are two digits, which places the dashes
    if CalendarFields(date) then PaddedTwoDigits(date.month + 1); PaddedTwoDigits(date.day); DateParts(y, m, d); s
    else s
  }

  /** The fields a Date's local calendar reading can have. */
  predicate CalendarFields(date: JsDate)
  {
    0 <= date.month < 12 && 1 <= date.day <= 31
  }

  /** Reads a `year-MM-DD` string back into the fields `formatDate` used. */
  function ParseFormattedDate(s: string): Option<JsDate>
  {
    if |s| < 7 then None
    else
      var y, m, d := s[..|s| - 6], s[|s| - 5..|s| - 3], s[|s| - 2..];
      if s[|s| - 6] == '-' && s[|s| - 3] == '-' && AllDigits(y) && AllDigits(m) && AllDigits(d)
      then Some(JsDate(DigitsToInt(y), DigitsToInt(m) - 1, DigitsToInt(d)))
      else None
  }

  /** A number below 100, padded, is two digits that read back as it. */
  lemma PaddedTwoDigits(n: nat)
    requires n < 100
    ensures var s := PadStart2(IntToString(n)); |s| == 2 && AllDigits(s) && DigitsToInt(s) == n
  {
    var s := PadStart2(IntToString(n));
    DigitsRoundTrip(n);
    if n < 10 {
      assert s == ['0'] + NatToString(n);
      assert s[..1] == "0";
      assert s[..1][..0] == [];
    } else {
      assert NatToString(n) == NatToString(n / 10) + [DigitChar(n % 10)];
    }
  }

  /** Where the three parts of a `year-MM-DD` string sit. */
  lemma DateParts(y: string, m: string, d: string)
    requires |y| > 0 && |m| == 2 && |d| == 2
    ensures var s := y + "-" + m + "-" + d;
            && |s| >= 7 && s[..|s| - 6] == y && s[|s| - 6] == '-'
            && s[|s| - 5..|s| - 3] == m && s[|s| - 3] == '-' && s[|s| - 2..] == d
  {
  }

  /** A date of a non-negative year formats to a string that reads back as
      the same date. */
  lemma FormatDateRoundTrip(date: JsDate)
    requires CalendarFields(date) && date.year >= 0
    ensures ParseFormattedDate(FormatDate(date)) == Some(date)
  {
    DigitsRoundTrip(date.year);
  }

  /** 5 January 2024 (month 0) is written "2024-01-05". */
  lemma FormatDateExample()
    ensures FormatDate(JsDate(2024, 0, 5)) == "2024-01-05"
  {
  }

  // ---------------------------------------------------------------------
  // The form

  /** The form's values. Selections (document type, locality, tax
      condition) are the selected catalog entry's id, or null; the birth
      date is the date picker's Date, or empty. */
  datatype FormValue = FormValue(
    tipoDocumento: Option<int>,
    nroDocumento: string,
    fechaNacimiento: Option<JsDate>,
    sexo: string,
    telefono: string,
    domicilio: string,
    localidad: Option<int>,
    condicionIva: Option<int>,
    cuit: string,
    contactoEmergencia: string)

  const EmptyForm: FormValue := FormValue(None, "", None, "", "", "", None, None, "", "")

  /** The pattern validator accepts an empty value and otherwise needs a match. */
  predicate CuitValid(cuit: string, required: bool)
  {
    (required ==> cuit != "") && (cuit == "" || CuitPattern(cuit))
  }

  /** The form is valid when every required control has a value and the
      CUIT passes its validators. Whether the CUIT and the tax condition are
      required is the validator state the age sets. */
  predicate FormValid(f: FormValue, cuitRequired: bool, condicionIvaRequired: bool): (r: bool)
    ensures r ==> f.tipoDocumento.Some? && f.fechaNacimiento.Some? && f.localidad.Some?
    ensures r && condicionIvaRequired ==> f.condicionIva.Some?
    ensures r && cuitRequired ==> CuitPattern(f.cuit)
    ensures r ==> f.cuit == "" || CuitPattern(f.cuit)
  {
    && f.tipoDocumento.Some? && f.nroDocumento != "" && f.fechaNacimiento.Some?
    && f.sexo != "" && f.telefono != "" && f.domicilio != "" && f.localidad.Some?
    && (condicionIvaRequired ==> f.condicionIva.Some?)
    && CuitValid(f.cuit, cuitRequired)
    && f.contactoEmergencia != ""
  }

  /** With the adult validators a valid form has a CUIT in the pattern's
      shape and a tax condition. */
  lemma AdultFormHasTaxFields(f: FormValue)
    requires FormValid(f, true, true)
    ensures CuitPattern(f.cuit) && f.condicionIva.Some?
  {
  }

  /** With the minor's validators the tax fields may be left empty, but a
      CUIT that is entered must still match the pattern. */
  lemma MinorFormTaxFieldsOptional(f: FormValue)
    requires FormValid(f, false, false)
    ensures FormValid(f.(cuit := "", condicionIva := None), false, false)
    ensures f.cuit == "" || CuitPattern(f.cuit)
  {
  }

  /** `currentUser.user_metadata?.[key] || ''`. */
  function MetadataText(u: User, key: string): string
  {
    if u.user_metadata.Some? && key in u.user_metadata.value then u.user_metadata.value[key] else ""
  }

  const MsgNoUser: string := "No se pudo obtener la información del usuario"
  const MsgNoEmail: string := "No se pudo obtener el email del usuario"
  const MsgNoName: string := "No se pudo obtener el nombre del usuario"
  const MsgSaveFailed: string := "Error al guardar el perfil. Por favor intenta de nuevo."
  const DashboardPath: string := "/dashboard"

  /** The message of the first user check `onSubmit` fails, if any: a user,
      then its email, then both names in its metadata. */
  function SubmitError(currentUser: Option<User>): (r: Option<string>)
    ensures currentUser.None? ==> r == Some(MsgNoUser)
    ensures r.None? <==> currentUser.Some? && OptTruthy(currentUser.value.email) &&
                         MetadataText(currentUser.value, "firstName") != "" &&
                         MetadataText(currentUser.value, "lastName") != ""
  {
    if currentUser.None? then Some(MsgNoUser)
    else if !OptTruthy(currentUser.value.email) then Some(MsgNoEmail)
    else if MetadataText(currentUser.value, "firstName") == "" || MetadataText(currentUser.value, "lastName") == "" then Some(MsgNoName)
    else None
  }

  /** The profile data `onSubmit` builds from the form and the user. */
  function BuildPerfilData(f: FormValue, u: User): (r: CompletarPerfilData)
    requires f.tipoDocumento.Some? && f.fechaNacimiento.Some? && f.localidad.Some? && u.email.Some?
    ensures r.email == u.email.value
    ensures r.cuit.Some? <==> f.cuit != ""
    ensures r.cuit.Some? ==> (forall i :: 0 <= i < |r.cuit.value| ==> r.cuit.value[i] != '-') &&
                             StripDashes(f.cuit) == r.cuit.value
    ensures r.condicion_iva_id == f.condicionIva
  {
    CompletarPerfilData(
      MetadataText(u, "firstName"),
      MetadataText(u, "lastName"),
      f.tipoDocumento.value,
      f.nroDocumento,
      FormatDate(f.fechaNacimiento.value),
      f.sexo,
      u.email.value,
      f.telefono,
      f.domicilio,
      f.localidad.value,
      f.condicionIva,
      if f.cuit != "" then Some(StripDashes(f.cuit)) else None,
      f.contactoEmergencia)
  }

  /** A valid adult form submits an 11-digit CUIT without dashes, so the
      service stores it; the tax condition is stored unless its id is 0. */
  lemma AdultSubmissionCarriesTaxFields(f: FormValue, u: User)
    requires FormValid(f, true, true) && u.email.Some?
    ensures var data := BuildPerfilData(f, u);
            && data.cuit.Some? && |data.cuit.value| == 11 && AllDigits(data.cuit.value)
            && (f.condicionIva.value != 0 ==> IdTruthy(data.condicion_iva_id))
  {
    PatternIsFormatted(f.cuit);
  }

  /** The submitted birth date reads back as the picked date. */
  lemma SubmittedDateReadsBack(f: FormValue, u: User)
    requires f.tipoDocumento.Some? && f.fechaNacimiento.Some? && f.localidad.Some? && u.email.Some?
    requires CalendarFields(f.fechaNacimiento.value) && f.fechaNacimiento.value.year >= 0
    ensures ParseFormattedDate(BuildPerfilData(f, u).fecha_nacimiento) == f.fechaNacimiento
  {
    FormatDateRoundTrip(f.fechaNacimiento.value);
  }

  /** A locality search the component sent: the text and the result limit. */
  datatype LocalidadQuery = LocalidadQuery(texto: string, limit: int)

  /** The text controls after pre-filling: each truthy stored field
      replaces the form's value, the CUIT shown formatted. */
  function PrecargadoTexto(f: FormValue, p: Paciente): FormValue
  {
    f.(nroDocumento := if OptTruthy(p.nro_documento) then p.nro_documento.value else f.nroDocumento,
       sexo := if Truthy(p.sexo) then p.sexo else f.sexo,
       telefono := if Truthy(p.telefono) then p.telefono else f.telefono,
       domicilio := if Truthy(p.domicilio) then p.domicilio else f.domicilio,
       cuit := if OptTruthy(p.cuit) then FormatCuit(p.cuit.value) else f.cuit,
       contactoEmergencia := if Truthy(p.contacto_emergencia) then p.contacto_emergencia else f.contactoEmergencia)
  }

  /** The selections after pre-filling: the document type and the tax
      condition when their stored id is truthy and in the loaded catalog,
      the locality when its lookup found it. */
  function PrecargadoSelecciones(f: FormValue, p: Paciente, tiposDocumento: seq<int>, condicionesIva: seq<int>,
                                 localidad: Lookup<Option<LocalidadCompleta>>): FormValue
  {
    f.(tipoDocumento := if IdTruthy(p.tipo_doc_id) && p.tipo_doc_id.value in tiposDocumento then p.tipo_doc_id else f.tipoDocumento,
       localidad := if p.localidad != 0 && localidad.Emits? && localidad.value.Some? then Some(localidad.value.value.id) else f.localidad,
       condicionIva := if IdTruthy(p.condicion_iva_id) && p.condicion_iva_id.value in condicionesIva then p.condicion_iva_id else f.condicionIva)
  }

  /** The form after `precargarFormulario` patched it from a stored
      patient: text controls, selections and, when stored, the birth date. */
  function Precargado(f: FormValue, p: Paciente, parse: string -> JsDate, tiposDocumento: seq<int>,
                      condicionesIva: seq<int>, localidad: Lookup<Option<LocalidadCompleta>>): (r: FormValue)
    ensures r.fechaNacimiento == if Truthy(p.fecha_nacimiento) then Some(parse(p.fecha_nacimiento)) else f.fechaNacimiento
    ensures r.tipoDocumento == f.tipoDocumento || (r.tipoDocumento.Some? && r.tipoDocumento.value in tiposDocumento)
    ensures r.condicionIva == f.condicionIva || (r.condicionIva.Some? && r.condicionIva.value in condicionesIva)
    ensures r.localidad == f.localidad || (localidad.Emits? && localidad.value.Some? && r.localidad == Some(localidad.value.value.id))
  {
    var g := PrecargadoSelecciones(PrecargadoTexto(f, p), p, tiposDocumento, condicionesIva, localidad);
    if Truthy(p.fecha_nacimiento) then g.(fechaNacimiento := Some(parse(p.fecha_nacimiento))) else g
  }

  /** Pre-filling never erases what the form holds: a field whose stored
      value is falsy keeps the form's value, and a stored 11-digit CUIT is
      shown in the pattern's shape. */
  lemma PrecargadoKeepsAndFormats(f: FormValue, p: Paciente, parse: string -> JsDate, tipos: seq<int>,
                                  condiciones: seq<int>, localidad: Lookup<Option<LocalidadCompleta>>)
    ensures var g := Precargado(f, p, parse, tipos, condiciones, localidad);
            && (!OptTruthy(p.nro_documento) ==> g.nroDocumento == f.nroDocumento)
            && (!OptTruthy(p.cuit) ==> g.cuit == f.cuit)
            && (!Truthy(p.fecha_nacimiento) ==> g.fechaNacimiento == f.fechaNacimiento)
            && (p.cuit.Some? && |p.cuit.value| == 11 && AllDigits(p.cuit.value) ==> CuitPattern(g.cuit))
  {
    if p.cuit.Some? && |p.cuit.value| == 11 && AllDigits(p.cuit.value) {
      StripDashesNoDash(p.cuit.value);
      FormatCuitMatchesPattern(p.cuit.value);
    }
  }

  // ---------------------------------------------------------------------
  // The component

  class CompleteProfileComponent {
    var form: FormValue
    var touched: bool
    var loading: bool
    var errorMessage: Option<string>
    var esMayorDeEdad: bool
    /** The validator state: whether the CUIT control has `required`, and
        whether the tax-condition control has any validator. */
    var cuitRequired: bool
    var condicionIvaRequired: bool
    /** The ids of the loaded document-type and tax-condition catalogs. */
    var tiposDocumento: seq<int>
    var condicionesIva: seq<int>
    var localidadesSugeridas: seq<LocalidadCompleta>
    var pacienteExistente: Option<Paciente>
    /** The locality searches sent, the router navigations and the store
        writes, in order. */
    var localidadQueries: seq<LocalidadQuery>
    var navigations: seq<string>
    var writes: seq<StoreWrite>

    /** The validators always follow the age flag. */
    ghost predicate Valid()
      reads this
    {
      cuitRequired == esMayorDeEdad && condicionIvaRequired == esMayorDeEdad
    }

    /** The form starts empty with the adult validators. */
    constructor()
      ensures Valid()
      ensures form == EmptyForm && !touched && !loading && errorMessage.None?
      ensures esMayorDeEdad && pacienteExistente.None?
      ensures tiposDocumento == [] && condicionesIva == [] && localidadesSugeridas == []
      ensures localidadQueries == [] && navigations == [] && writes == []
    {
      form := EmptyForm;
      touched := false;
      loading := false;
      errorMessage := None;
      esMayorDeEdad := true;
      cuitRequired := true;
      condicionIvaRequired := true;
      tiposDocumento := [];
      condicionesIva := [];
      localidadesSugeridas := [];
      pacienteExistente := None;
      localidadQueries := [];
      navigations := [];
      writes := [];
    }

    /** `actualizarValidacionCuit`: 18 or over makes the CUIT and the tax
        condition required; under 18 the CUIT keeps only its pattern and the
        tax condition loses its validators. */
    method ActualizarValidacionCuit(fechaNacimiento: JsDate, hoy: JsDate)
      modifies this
      ensures Valid()
      ensures esMayorDeEdad == (CalcularEdad(fechaNacimiento, hoy) >= 18)
      ensures form == old(form) && touched == old(touched) && loading == old(loading)
      ensures errorMessage == old(errorMessage) && pacienteExistente == old(pacienteExistente)
      ensures tiposDocumento == old(tiposDocumento) && condicionesIva == old(condicionesIva)
      ensures localidadesSugeridas == old(localidadesSugeridas) && localidadQueries == old(localidadQueries)
      ensures navigations == old(navigations) && writes == old(writes)
    {
      var edad := EdadFormulario(fechaNacimiento, hoy);
      EdadFormularioAgrees(fechaNacimiento, hoy);
      var esMayor := edad >= 18;
      esMayorDeEdad := esMayor;
      if esMayor {
        cuitRequired := true;
        condicionIvaRequired := true;
      } else {
        cuitRequired := false;
        condicionIvaRequired := false;
      }
    }

    /** The birth-date control changed: the value is stored and, when it
        is a date, the validators follow the new age. */
    method OnFechaNacimientoChange(fecha: Option<JsDate>, hoy: JsDate)
      requires Valid()
      modifies this
      ensures Valid()
      ensures form == old(form).(fechaNacimiento := fecha)
      ensures fecha.Some? ==> esMayorDeEdad == (CalcularEdad(fecha.value, hoy) >= 18)
      ensures fecha.None? ==> esMayorDeEdad == old(esMayorDeEdad)
      ensures touched == old(touched) && loading == old(loading) && errorMessage == old(errorMessage)
      ensures pacienteExistente == old(pacienteExistente)
      ensures tiposDocumento == old(tiposDocumento) && condicionesIva == old(condicionesIva)
      ensures localidadesSugeridas == old(localidadesSugeridas) && localidadQueries == old(localidadQueries)
      ensures navigations == old(navigations) && writes == old(writes)
    {
      form := form.(fechaNacimiento := fecha);
      if fecha.Some? {
        ActualizarValidacionCuit(fecha.value, hoy);
      }
    }

    /** The text-control patches of `precargarFormulario`. */
    method PatchTexto(p: Paciente)
      modifies this
      ensures form == PrecargadoTexto(old(form), p)
      ensures touched == old(touched) && loading == old(loading) && errorMessage == old(errorMessage)
      ensures esMayorDeEdad == old(esMayorDeEdad) && cuitRequired == old(cuitRequired)
      ensures condicionIvaRequired == old(condicionIvaRequired) && pacienteExistente == old(pacienteExistente)
      ensures tiposDocumento == old(tiposDocumento) && condicionesIva == old(condicionesIva)
      ensures localidadesSugeridas == old(localidadesSugeridas) && localidadQueries == old(localidadQueries)
      ensures navigations == old(navigations) && writes == old(writes)
    {
      var f := form;
      if p.nro_documento.Some? && p.nro_documento.value != "" {
        f := f.(nroDocumento := p.nro_documento.value);
      }
      if p.sexo != "" {
        f := f.(sexo := p.sexo);
      }
      if p.telefono != "" {
        f := f.(telefono := p.telefono);
      }
      if p.domicilio != "" {
        f := f.(domicilio := p.domicilio);
      }
      if p.cuit.Some? && p.cuit.value != "" {
        f := f.(cuit := FormatCuit(p.cuit.value));
      }
      if p.contacto_emergencia != "" {
        f := f.(contactoEmergencia := p.contacto_emergencia);
      }
      form := f;
    }

    /** The selection patches of `precargarFormulario`; `localidad` is the
        answer of the locality lookup by id. */
    method PatchSelecciones(p: Paciente, localidad: Lookup<Option<LocalidadCompleta>>)
      modifies this
      ensures form == PrecargadoSelecciones(old(form), p, tiposDocumento, condicionesIva, localidad)
      ensures touched == old(touched) && loading == old(loading) && errorMessage == old(errorMessage)
      ensures esMayorDeEdad == old(esMayorDeEdad) && cuitRequired == old(cuitRequired)
      ensures condicionIvaRequired == old(condicionIvaRequired) && pacienteExistente == old(pacienteExistente)
      ensures tiposDocumento == old(tiposDocumento) && condicionesIva == old(condicionesIva)
      ensures localidadesSugeridas == old(localidadesSugeridas) && localidadQueries == old(localidadQueries)
      ensures navigations == old(navigations) && writes == old(writes)
    {
      var f := form;
      if p.tipo_doc_id.Some? && p.tipo_doc_id.value != 0 && |tiposDocumento| > 0 {
        if p.tipo_doc_id.value in tiposDocumento {
          f := f.(tipoDocumento := p.tipo_doc_id);
        }
      }
      if p.localidad != 0 {
        if localidad.Emits? && localidad.value.Some? {
          f := f.(localidad := Some(localidad.value.value.id));
        }
      }
      if p.condicion_iva_id.Some? && p.condicion_iva_id.value != 0 && |condicionesIva| > 0 {
        if p.condicion_iva_id.value in condicionesIva {
          f := f.(condicionIva := p.condicion_iva_id);
        }
      }
      form := f;
    }

    /** `precargarFormulario`: patches the form from the stored patient.
        Patching a birth date goes through its control, whose change
        subscription makes the validators follow its age. */
    method PrecargarFormulario(p: Paciente, hoy: JsDate, parse: string -> JsDate, localidad: Lookup<Option<LocalidadCompleta>>)
      requires Valid()
      modifies this
      ensures Valid()
      ensures form == Precargado(old(form), p, parse, tiposDocumento, condicionesIva, localidad)
      ensures Truthy(p.fecha_nacimiento) ==> esMayorDeEdad == (CalcularEdad(parse(p.fecha_nacimiento), hoy) >= 18)
      ensures !Truthy(p.fecha_nacimiento) ==> esMayorDeEdad == old(esMayorDeEdad)
      ensures touched == old(touched) && loading == old(loading) && errorMessage == old(errorMessage)
      ensures pacienteExistente == old(pacienteExistente)
      ensures tiposDocumento == old(tiposDocumento) && condicionesIva == old(condicionesIva)
      ensures localidadesSugeridas == old(localidadesSugeridas) && localidadQueries == old(localidadQueries)
      ensures navigations == old(navigations) && writes == old(writes)
    {
      PatchTexto(p);
      if p.fecha_nacimiento != "" {
        OnFechaNacimientoChange(Some(parse(p.fecha_nacimiento)), hoy);
      }
      PatchSelecciones(p, localidad);
    }

    /** `cargarDatosPaciente`: without a user nothing happens. Otherwise the
        user's patient is looked up (`rows` is the store's answer): a
        complete profile navigates to the dashboard, an incomplete one is
        kept and pre-fills the form, no patient or a failed lookup changes
        nothing. */
    method CargarDatosPaciente(currentUser: Option<User>, rows: Lookup<seq<Paciente>>, hoy: JsDate,
                               parse: string -> JsDate, localidad: Lookup<Option<LocalidadCompleta>>)
      requires Valid()
      modifies this
      ensures Valid()
      ensures var found := GetPacienteByUserId(rows);
              var present := currentUser.Some? && found.Emits? && found.value.Some?;
              && (present && PerfilCompleto(found.value, hoy, parse) ==>
                    navigations == old(navigations) + [DashboardPath] && form == old(form) &&
                    pacienteExistente == old(pacienteExistente) && esMayorDeEdad == old(esMayorDeEdad))
              && (present && !PerfilCompleto(found.value, hoy, parse) ==>
                    navigations == old(navigations) && pacienteExistente == found.value &&
                    form == Precargado(old(form), found.value.value, parse, tiposDocumento, condicionesIva, localidad) &&
                    (Truthy(found.value.value.fecha_nacimiento) ==>
                       esMayorDeEdad == (CalcularEdad(parse(found.value.value.fecha_nacimiento), hoy) >= 18)) &&
                    (!Truthy(found.value.value.fecha_nacimiento) ==> esMayorDeEdad == old(esMayorDeEdad)))
              && (!present ==>
                    navigations == old(navigations) && form == old(form) &&
                    pacienteExistente == old(pacienteExistente) && esMayorDeEdad == old(esMayorDeEdad))
      ensures touched == old(touched) && loading == old(loading) && errorMessage == old(errorMessage)
      ensures tiposDocumento == old(tiposDocumento) && condicionesIva == old(condicionesIva)
      ensures localidadesSugeridas == old(localidadesSugeridas) && localidadQueries == old(localidadQueries)
      ensures writes == old(writes)
    {
      if currentUser.None? {
        return;
      }
      var found := GetPacienteByUserId(rows);
      if found.Fails? || found.value.None? {
        return;
      }
      var paciente := found.value.value;
      PerfilCompletoFormularioAgrees(paciente, hoy, parse);
      if PerfilCompletoFormulario(paciente, hoy, parse) {
        navigations := navigations + [DashboardPath];
        return;
      }
      pacienteExistente := Some(paciente);
      PrecargarFormulario(paciente, hoy, parse, localidad);
    }

    /** `buscarLocalidades`: a query shorter than two characters clears the
        suggestions and sends nothing; a longer one is sent with limit 20 and
        its results (none on error) become the suggestions. */
    method BuscarLocalidades(query: string, answer: Lookup<seq<LocalidadCompleta>>)
      modifies this
      ensures |query| < 2 ==> localidadesSugeridas == [] && localidadQueries == old(localidadQueries)
      ensures |query| >= 2 ==> localidadQueries == old(localidadQueries) + [LocalidadQuery(query, 20)] &&
                               localidadesSugeridas == (if answer.Emits? then answer.value else [])
      ensures form == old(form) && touched == old(touched) && loading == old(loading)
      ensures errorMessage == old(errorMessage) && esMayorDeEdad == old(esMayorDeEdad)
      ensures cuitRequired == old(cuitRequired) && condicionIvaRequired == old(condicionIvaRequired)
      ensures pacienteExistente == old(pacienteExistente)
      ensures tiposDocumento == old(tiposDocumento) && condicionesIva == old(condicionesIva)
      ensures navigations == old(navigations) && writes == old(writes)
    {
      if |query| < 2 {
        localidadesSugeridas := [];
        return;
      }
      localidadQueries := localidadQueries + [LocalidadQuery(query, 20)];
      match answer
      case Emits(localidades) => localidadesSugeridas := localidades;
      case Fails => localidadesSugeridas := [];
    }

    /** The save of `onSubmit` and what its end does to the page: saved
        navigates to the dashboard, failed shows the save error, a save that
        never ends leaves the page loading. */
    method Guardar(perfilData: CompletarPerfilData, userId: string, existing: Lookup<seq<Paciente>>,
                   written: Lookup<seq<Paciente>>)
      requires loading && errorMessage.None?
      modifies this`loading, this`errorMessage, this`navigations, this`writes
      ensures |old(writes)| <= |writes| <= |old(writes)| + 1 && writes[..|old(writes)|] == old(writes)
      ensures |writes| > |old(writes)| ==> IsPacienteData(perfilData, userId, writes[|writes| - 1].record)
      ensures match SaveOutcome(existing, written)
              case Saved(_) => !loading && errorMessage.None? && navigations == old(navigations) + [DashboardPath]
              case SaveFailed => !loading && errorMessage == Some(MsgSaveFailed) && navigations == old(navigations)
              case Stalled => loading && errorMessage.None? && navigations == old(navigations)
    {
      var write, result := GuardarPerfil(perfilData, userId, existing, written);
      if write.Some? {
        writes := writes + [write.value];
      }
      match result
      case Saved(_) =>
        loading := false;
        navigations := navigations + [DashboardPath];
      case SaveFailed =>
        loading := false;
        errorMessage := Some(MsgSaveFailed);
      case Stalled =>
    }

    /** The submission `onSubmit` makes of a valid form: it starts loading
        and clears the error; a failed user check stops with its message;
        otherwise the profile built from the form and the user is saved
        (`existing` and `written` are the store's answers). */
    method Enviar(currentUser: Option<User>, existing: Lookup<seq<Paciente>>, written: Lookup<seq<Paciente>>)
      requires FormValid(form, cuitRequired, condicionIvaRequired)
      modifies this`loading, this`errorMessage, this`navigations, this`writes
      ensures SubmitError(currentUser).Some? ==>
                !loading && errorMessage == SubmitError(currentUser) && navigations == old(navigations) && writes == old(writes)
      ensures SubmitError(currentUser).None? ==>
                && |old(writes)| <= |writes| <= |old(writes)| + 1 && writes[..|old(writes)|] == old(writes)
                && (|writes| > |old(writes)| ==>
                      IsPacienteData(BuildPerfilData(form, currentUser.value), currentUser.value.id, writes[|writes| - 1].record))
                && match SaveOutcome(existing, written)
                   case Saved(_) => !loading && errorMessage.None? && navigations == old(navigations) + [DashboardPath]
                   case SaveFailed => !loading && errorMessage == Some(MsgSaveFailed) && navigations == old(navigations)
                   case Stalled => loading && errorMessage.None? && navigations == old(navigations)
    {
      loading := true;
      errorMessage := None;
      var failure := SubmitError(currentUser);
      if failure.Some? {
        errorMessage := failure;
        loading := false;
        return;
      }
      var user := currentUser.value;
      Guardar(BuildPerfilData(form, user), user.id, existing, written);
    }

    /** `onSubmit`: an invalid form is only marked touched; a valid one is
        submitted. */
    method OnSubmit(currentUser: Option<User>, existing: Lookup<seq<Paciente>>, written: Lookup<seq<Paciente>>)
      requires Valid()
      modifies this`touched, this`loading, this`errorMessage, this`navigations, this`writes
      ensures Valid()
      ensures !FormValid(form, cuitRequired, condicionIvaRequired) ==>
                touched && loading == old(loading) && errorMessage == old(errorMessage) &&
                navigations == old(navigations) && writes == old(writes)
      ensures FormValid(form, cuitRequired, condicionIvaRequired) ==> touched == old(touched)
      ensures FormValid(form, cuitRequired, condicionIvaRequired) && SubmitError(currentUser).Some? ==>
                !loading && errorMessage == SubmitError(currentUser) && navigations == old(navigations) && writes == old(writes)
      ensures FormValid(form, cuitRequired, condicionIvaRequired) && SubmitError(currentUser).None? ==>
                && |old(writes)| <= |writes| <= |old(writes)| + 1 && writes[..|old(writes)|] == old(writes)
                && (|writes| > |old(writes)| ==>
                      IsPacienteData(BuildPerfilData(form, currentUser.value), currentUser.value.id, writes[|writes| - 1].record))
                && match SaveOutcome(existing, written)
                   case Saved(_) => !loading && errorMessage.None? && navigations == old(navigations) + [DashboardPath]
                   case SaveFailed => !loading && errorMessage == Some(MsgSaveFailed) && navigations == old(navigations)
                   case Stalled => loading && errorMessage.None? && navigations == old(navigations)
    {
      if !FormValid(form, cuitRequired, condicionIvaRequired) {
        touched := true;
        return;
      }
      Enviar(currentUser, existing, written);
    }
  }
}
