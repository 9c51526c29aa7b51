/** The records the core reads and writes: the patient row, the profile
    form's payload, the authenticated user and the auth call response. Field
    names are the column and property names the application uses. */
module Models {
  import opened Common

  /** A calendar date as the fields of a JavaScript Date read in local time:
      `month` is 0-based as `getMonth()` returns it, `day` is `getDate()`. */
  datatype JsDate = JsDate(year: int, month: int, day: int)

  /** A row of the `pacientes` table. */
  datatype Paciente = Paciente(
    id: Option<int>,
    user_id: string,
    tipo_doc_id: Option<int>,
    nro_documento: Option<string>,
    apellido: Option<string>,
    nombre: Option<string>,
    fecha_nacimiento: string,
    sexo: string,
    email: string,
    telefono: string,
    domicilio: string,
    localidad: int,
    pais: Option<string>,
    condicion_iva_id: Option<int>,
    cuit: Option<string>,
    contacto_emergencia: string,
    activo: Option<bool>,
    created_at: Option<string>,
    updated_at: Option<string>)

  /** What the profile-completion form hands to the patient service. */
  datatype CompletarPerfilData = CompletarPerfilData(
    nombre: string,
    apellido: string,
    tipo_doc_id: int,
    nro_documento: string,
    fecha_nacimiento: string,
    sexo: string,
    email: string,
    telefono: string,
    domicilio: string,
    localidad_id: int,
    condicion_iva_id: Option<int>,
    cuit: Option<string>,
    contacto_emergencia: string)

  /** The application's view of an authenticated user. The free-form
      `user_metadata` record is modelled as a map of string values. */
  datatype User = User(
    id: string,
    email: Option<string>,
    created_at: Option<string>,
    updated_at: Option<string>,
    email_confirmed_at: Option<string>,
    last_sign_in_at: Option<string>,
    role: Option<string>,
    user_metadata: Option<map<string, string>>)

  /** The answer of every auth operation. */
  datatype AuthResponse = AuthResponse(user: Option<User>, error: Option<string>, success: bool)

  /** A row of the locality view used by the locality autocomplete. */
  datatype LocalidadCompleta = LocalidadCompleta(id: int, localidad: string, codigopostal: string, provincia: string)
}
