/** The patient service: the profile-completeness policy with its age
    arithmetic, the lookup of a patient by user id, and the save that builds
    the patient record and chooses between update and insert. The store's
    answers are parameters; "today" and the parsing of the stored birth date
    string (`new Date(...)`) are parameters too. */
module Pacientes {
  import opened Common
  import opened Models

  /** Calendar order on (year, month, day), compared field by field. */
  predicate OnOrBefore(a: JsDate, b: JsDate)
  {
    a.year < b.year || (a.year == b.year && (a.month < b.month || (a.month == b.month && a.day <= b.day)))
  }

  /** Age in whole years on day `hoy` of someone born on `nacimiento`. */
  function CalcularEdad(nacimiento: JsDate, hoy: JsDate): (r: int)
    ensures hoy.year - nacimiento.year - 1 <= r <= hoy.year - nacimiento.year
    ensures r == hoy.year - nacimiento.year <==> OnOrBefore(JsDate(hoy.year, nacimiento.month, nacimiento.day), hoy)
  {
    var edad := hoy.year - nacimiento.year;
    var mes := hoy.month - nacimiento.month;
    if mes < 0 || (mes == 0 && hoy.day < nacimiento.day) then edad - 1 else edad
  }

  /** The age reaches n exactly when the n-th anniversary of the birth date is
      on or before today: on the birthday itself the age has already grown. */
  lemma AgeReachesIffAnniversaryPassed(nacimiento: JsDate, hoy: JsDate, n: int)
    ensures CalcularEdad(nacimiento, hoy) >= n <==> OnOrBefore(JsDate(nacimiento.year + n, nacimiento.month, nacimiento.day), hoy)
  {
  }

  /** The age is the number of anniversaries passed: the n-th has passed and
      the (n+1)-th has not. */
  lemma AgeIsAnniversaryCount(nacimiento: JsDate, hoy: JsDate)
    ensures var n := CalcularEdad(nacimiento, hoy);
            OnOrBefore(JsDate(nacimiento.year + n, nacimiento.month, nacimiento.day), hoy) &&
            !OnOrBefore(JsDate(nacimiento.year + n + 1, nacimiento.month, nacimiento.day), hoy)
  {
    var n := CalcularEdad(nacimiento, hoy);
    AgeReachesIffAnniversaryPassed(nacimiento, hoy, n);
    AgeReachesIffAnniversaryPassed(nacimiento, hoy, n + 1);
  }

  /** The age never decreases as time passes. */
  lemma AgeMonotone(nacimiento: JsDate, hoy1: JsDate, hoy2: JsDate)
    requires OnOrBefore(hoy1, hoy2)
    ensures CalcularEdad(nacimiento, hoy1) <= CalcularEdad(nacimiento, hoy2)
  {
    var n := CalcularEdad(nacimiento, hoy1);
    AgeIsAnniversaryCount(nacimiento, hoy1);
    AgeReachesIffAnniversaryPassed(nacimiento, hoy2, n);
  }

  /** Someone born on 15 June 2006 is 17 on 14 June 2024 and 18 on 15 June 2024. */
  lemma EighteenthBirthdayExample()
    ensures CalcularEdad(JsDate(2006, 5, 15), JsDate(2024, 5, 14)) == 17
    ensures CalcularEdad(JsDate(2006, 5, 15), JsDate(2024, 5, 15)) == 18
  {
  }

  /** The ten fields every profile must have, each tested for truthiness. */
  predicate CamposBasicosCompletos(p: Paciente)
  {
    OptTruthy(p.nombre) && OptTruthy(p.apellido) && IdTruthy(p.tipo_doc_id) &&
    OptTruthy(p.nro_documento) && Truthy(p.fecha_nacimiento) && Truthy(p.sexo) &&
    Truthy(p.telefono) && Truthy(p.domicilio) && p.localidad != 0 &&
    Truthy(p.contacto_emergencia)
  }

  /** The completeness decision `tienePerfilCompleto` emits for the patient
      its lookup found (or for no patient). */
  predicate PerfilCompleto(paciente: Option<Paciente>, hoy: JsDate, parse: string -> JsDate): (r: bool)
    ensures r <==> paciente.Some? && CamposBasicosCompletos(paciente.value) &&
                   (CalcularEdad(parse(paciente.value.fecha_nacimiento), hoy) >= 18 ==>
                      IdTruthy(paciente.value.condicion_iva_id) && OptTruthy(paciente.value.cuit))
  {
    if paciente.None? then false
    else
      var p := paciente.value;
      if !CamposBasicosCompletos(p) then false
      else if CalcularEdad(parse(p.fecha_nacimiento), hoy) >= 18 then IdTruthy(p.condicion_iva_id) && OptTruthy(p.cuit)
      else true
  }

  /** `tienePerfilCompleto`: the lookup's error is passed on, otherwise the
      decision on what it found is emitted. */
  function TienePerfilCompleto(lookup: Lookup<Option<Paciente>>, hoy: JsDate, parse: string -> JsDate): (r: Lookup<bool>)
    ensures r.Fails? <==> lookup.Fails?
    ensures lookup.Emits? ==> r.value == PerfilCompleto(lookup.value, hoy, parse)
  {
    match lookup
    case Fails => Fails
    case Emits(p) => Emits(PerfilCompleto(p, hoy, parse))
  }

  /** No patient record: not complete. */
  lemma NoRecordIsIncomplete(hoy: JsDate, parse: string -> JsDate)
    ensures !PerfilCompleto(None, hoy, parse)
  {
  }

  /** A falsy basic field (an empty string, a zero id, an absent value) makes
      the profile incomplete whatever the other fields hold. */
  lemma MissingBasicFieldIsIncomplete(p: Paciente, hoy: JsDate, parse: string -> JsDate)
    requires !CamposBasicosCompletos(p)
    ensures !PerfilCompleto(Some(p), hoy, parse)
  {
  }

  /** Under 18 with every basic field present: complete, whatever the tax fields are. */
  lemma MinorWithBasicFieldsIsComplete(p: Paciente, hoy: JsDate, parse: string -> JsDate)
    requires CamposBasicosCompletos(p) && CalcularEdad(parse(p.fecha_nacimiento), hoy) < 18
    ensures PerfilCompleto(Some(p), hoy, parse)
    ensures forall civa, cuit :: PerfilCompleto(Some(p.(condicion_iva_id := civa, cuit := cuit)), hoy, parse)
  {
  }

  /** 18 or over with every basic field present: complete exactly when both
      the tax condition and the CUIT are truthy. */
  lemma AdultCompleteIffTaxFields(p: Paciente, hoy: JsDate, parse: string -> JsDate)
    requires CamposBasicosCompletos(p) && CalcularEdad(parse(p.fecha_nacimiento), hoy) >= 18
    ensures PerfilCompleto(Some(p), hoy, parse) <==> IdTruthy(p.condicion_iva_id) && OptTruthy(p.cuit)
  {
  }

  /** `getPacienteByUserId`: the first row the filter returns, or null; a
      store error is passed on. */
  function GetPacienteByUserId(rows: Lookup<seq<Paciente>>): (r: Lookup<Option<Paciente>>)
    ensures r.Fails? <==> rows.Fails?
    ensures rows.Emits? ==> (r.value.Some? <==> |rows.value| > 0)
    ensures rows.Emits? && |rows.value| > 0 ==> r.value.value == rows.value[0]
  {
    match rows
    case Fails => Fails
    case Emits(ps) => Emits(if |ps| > 0 then Some(ps[0]) else None)
  }

  /** A value stored in a record column. */
  datatype Value = Str(s: string) | Int(i: int) | Bool(b: bool)

  /** The columns of the `pacientes` table the save writes. */
  datatype Column =
    | UserId | Nombre | Apellido | TipoDocId | NroDocumento | FechaNacimiento | Sexo | Email
    | Telefono | Domicilio | Localidad | ContactoEmergencia | Pais | Activo | CondicionIvaId | Cuit

  /** The key under which the record carries each column. */
  function ColumnName(c: Column): string
  {
    match c
    case UserId => "user_id"
    case Nombre => "nombre"
    case Apellido => "apellido"
    case TipoDocId => "tipo_doc_id"
    case NroDocumento => "nro_documento"
    case FechaNacimiento => "fecha_nacimiento"
    case Sexo => "sexo"
    case Email => "email"
    case Telefono => "telefono"
    case Domicilio => "domicilio"
    case Localidad => "localidad"
    case ContactoEmergencia => "contacto_emergencia"
    case Pais => "pais"
    case Activo => "activo"
    case CondicionIvaId => "condicion_iva_id"
    case Cuit => "cuit"
  }

  type Record = map<Column, Value>

  /** The columns `guardarPerfil` always writes. */
  const BaseColumns: set<Column> := {
    UserId, Nombre, Apellido, TipoDocId, NroDocumento, FechaNacimiento,
    Sexo, Email, Telefono, Domicilio, Localidad, ContactoEmergencia, Pais, Activo}

  /** The base columns of the record carry their values from the form data
      (the locality id under the `localidad` column, the constant country
      and the active flag). */
  ghost predicate BaseFields(data: CompletarPerfilData, userId: string, rec: Record)
  {
    && BaseColumns <= rec.Keys
    && rec[UserId] == Str(userId)
    && rec[Nombre] == Str(data.nombre)
    && rec[Apellido] == Str(data.apellido)
    && rec[TipoDocId] == Int(data.tipo_doc_id)
    && rec[NroDocumento] == Str(data.nro_documento)
    && rec[FechaNacimiento] == Str(data.fecha_nacimiento)
    && rec[Sexo] == Str(data.sexo)
    && rec[Email] == Str(data.email)
    && rec[Telefono] == Str(data.telefono)
    && rec[Domicilio] == Str(data.domicilio)
    && rec[Localidad] == Int(data.localidad_id)
    && rec[ContactoEmergencia] == Str(data.contacto_emergencia)
    && rec[Pais] == Str("Argentina")
    && rec[Activo] == Bool(true)
  }

  /** What the record `guardarPerfil` sends to the store must hold: every
      base column with its value from the form data, and the tax columns
      present, with their input, exactly when that input is truthy. */
  ghost predicate IsPacienteData(data: CompletarPerfilData, userId: string, rec: Record)
  {
    && rec.Keys == BaseColumns
                   + (if IdTruthy(data.condicion_iva_id) then {CondicionIvaId} else {})
                   + (if OptTruthy(data.cuit) then {Cuit} else {})
    && BaseFields(data, userId, rec)
    && (IdTruthy(data.condicion_iva_id) ==> rec[CondicionIvaId] == Int(data.condicion_iva_id.value))
    && (OptTruthy(data.cuit) ==> rec[Cuit] == Str(data.cuit.value))
  }

  /** IsPacienteData pins the record down completely. */
  lemma PacienteDataIsUnique(data: CompletarPerfilData, userId: string, r1: Record, r2: Record)
    requires IsPacienteData(data, userId, r1) && IsPacienteData(data, userId, r2)
    ensures r1 == r2
  {
    forall k | k in r1.Keys ensures r1[k] == r2[k] {
      assert k in BaseColumns || k == CondicionIvaId || k == Cuit;
    }
  }

  /** The record of `guardarPerfil` before the optional tax columns. */
  method BaseRecord(data: CompletarPerfilData, userId: string) returns (rec: Record)
    ensures rec.Keys == BaseColumns && BaseFields(data, userId, rec)
  {
    rec := map[
      UserId := Str(userId),
      Nombre := Str(data.nombre),
      Apellido := Str(data.apellido),
      TipoDocId := Int(data.tipo_doc_id),
      NroDocumento := Str(data.nro_documento),
      FechaNacimiento := Str(data.fecha_nacimiento),
      Sexo := Str(data.sexo),
      Email := Str(data.email),
      Telefono := Str(data.telefono),
      Domicilio := Str(data.domicilio),
      Localidad := Int(data.localidad_id),
      ContactoEmergencia := Str(data.contacto_emergencia),
      Pais := Str("Argentina"),
      Activo := Bool(true)
    ];
  }

  /** Builds the record of `guardarPerfil`: the base columns first, then the
      tax columns added one by one when their input is truthy. */
  method BuildPacienteData(data: CompletarPerfilData, userId: string) returns (rec: Record)
    ensures IsPacienteData(data, userId, rec)
  {
    rec := BaseRecord(data, userId);
    if data.condicion_iva_id.Some? && data.condicion_iva_id.value != 0 {
      rec := rec[CondicionIvaId := Int(data.condicion_iva_id.value)];
    }
    if data.cuit.Some? && data.cuit.value != "" {
      rec := rec[Cuit := Str(data.cuit.value)];
    }
  }

  /** The write `guardarPerfil` asks the store for. */
  datatype StoreWrite = UpdateById(id: string, record: Record) | Insert(record: Record)

  /** How the observable `guardarPerfil` returns ends: it emits the first
      returned row (undefined when the store returned none), it errors, or it
      never emits because its callback threw (an existing row without id). */
  datatype SaveResult = Saved(row: Option<Paciente>) | SaveFailed | Stalled

  function FirstRow(rows: seq<Paciente>): Option<Paciente>
  {
    if |rows| > 0 then Some(rows[0]) else None
  }

  /** How a save ends, given the store's answers to the lookup and to the write. */
  function SaveOutcome(existing: Lookup<seq<Paciente>>, written: Lookup<seq<Paciente>>): SaveResult
  {
    if existing.Fails? then SaveFailed
    else if |existing.value| > 0 && existing.value[0].id.None? then Stalled
    else if written.Fails? then SaveFailed
    else Saved(FirstRow(written.value))
  }

  /** `guardarPerfil`: looks the user's patient up, then updates that patient
      by id when one exists and inserts a new one otherwise. `existing` is the
      store's answer to the lookup and `written` its answer to the write. */
  method GuardarPerfil(data: CompletarPerfilData, userId: string, existing: Lookup<seq<Paciente>>, written: Lookup<seq<Paciente>>)
    returns (write: Option<StoreWrite>, result: SaveResult)
    ensures existing.Fails? ==> write.None? && result == SaveFailed
    ensures write.Some? ==> IsPacienteData(data, userId, write.value.record)
    ensures existing.Emits? && |existing.value| == 0 ==>
              write.Some? && write.value.Insert?
    ensures existing.Emits? && |existing.value| > 0 && existing.value[0].id.Some? ==>
              write.Some? && write.value == UpdateById(IntToString(existing.value[0].id.value), write.value.record)
    ensures existing.Emits? && |existing.value| > 0 && existing.value[0].id.None? ==>
              write.None? && result == Stalled
    ensures write.Some? ==> result == (if written.Fails? then SaveFailed else Saved(FirstRow(written.value)))
    ensures result == SaveOutcome(existing, written)
  {
    var pacienteData := BuildPacienteData(data, userId);
    var found := GetPacienteByUserId(existing);
    if found.Fails? {
      return None, SaveFailed;
    }
    if found.value.Some? {
      var p := found.value.value;
      if p.id.None? {
        return None, Stalled;
      }
      write := Some(UpdateById(IntToString(p.id.value), pacienteData));
    } else {
      write := Some(Insert(pacienteData));
    }
    result := if written.Fails? then SaveFailed else Saved(FirstRow(written.value));
  }
}
