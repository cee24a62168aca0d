/**
 * The profile-completion form: one predicate per field, the `validaciones` record that
 * each edit updates under its own key, the photo picks, the enabled state of the submit
 * button and the checks and payload of `enviarFormulario`.
 */
module CrearPerfil {
  import opened Wrappers
  import opened JsText

  /** `/^[a-zA-Z\s]+$/`: one or more ASCII letters or white-space characters. */
  predicate LettersOnly(s: string) {
    s != [] && forall k | 0 <= k < |s| :: IsAsciiLetter(s[k]) || IsSpace(s[k])
  }

  /** The name check: a non-empty run of letters and blanks, so never a digit. */
  predicate NombreValido(s: string): (ok: bool)
    ensures ok ==> s != [] && forall k | 0 <= k < |s| :: !IsDigit(s[k])
  {
    LettersOnly(s)
  }
  predicate ApellidoValido(s: string) { LettersOnly(s) }

  /** `/^[0-9]+$/.test(text) && parseInt(text) > 18`. */
  predicate EdadValida(s: string): (ok: bool)
    ensures ok ==> |s| >= 2
  {
    s != [] && AllDigits(s) && (if |s| == 1 then OneDigitValue(s); DecimalValue(s) > 18 else DecimalValue(s) > 18)
  }

  /** A single digit is worth at most nine. */
  lemma OneDigitValue(s: string)
    requires |s| == 1 && AllDigits(s)
    ensures DecimalValue(s) <= 9
  {
    assert s[..0] == [];
    assert IsDigit(s[0]);
  }

  /** `/^[0-9]{8}$/`. */
  predicate DniValido(s: string): (ok: bool)
    ensures ok ==> AllDigits(s) && ParseInt(s) == Some(DecimalValue(s))
  {
    if |s| == 8 && AllDigits(s) then ParseIntDigits(s); true else false
  }

  predicate CiudadValida(s: string) { s != "" }

  /** `text.trim().length > 0`. */
  predicate TextoNoVacio(s: string) { !IsBlank(s) }

  /** Accented letters are outside `[a-zA-Z]`, so 'José' is refused; a name of blanks is accepted. */
  lemma NameExamples()
    ensures !NombreValido("José")
    ensures NombreValido("Ana Maria")
    ensures NombreValido("   ")
  {
    assert !IsAsciiLetter("José"[3]) && !IsSpace("José"[3]);
  }

  /** The age check is strict: '18' is refused and '19' accepted. */
  lemma AgeBoundary()
    ensures !EdadValida("18")
    ensures EdadValida("19")
  {
    assert "18"[..1] == "1" && "19"[..1] == "1";
    assert "1"[..0] == "";
  }

  /** An accepted DNI is an eight-digit number: `parseInt` reads it as a value below 10^8. */
  lemma DniValue(s: string)
    requires DniValido(s)
    ensures ParseInt(s).Some? && 0 <= ParseInt(s).value < 100000000
  {
    ParseIntDigits(s);
    DecimalValueBound(s);
  }

  /** An accepted age is read by `parseInt` as that same number, above 18. */
  lemma EdadValue(s: string)
    requires EdadValida(s)
    ensures ParseInt(s) == Some(DecimalValue(s)) && ParseInt(s).value > 18
  {
    ParseIntDigits(s);
  }

  /**
   * The `validaciones` object: one flag per field. Each edit replaces one entry, as the
   * object spread `{ ...validaciones, campo: valor }` does.
   */
  datatype Validaciones = Validaciones(
    nombre: bool, apellido: bool, edad: bool, dni: bool,
    fotoPerfil: bool, fotoFrente: bool, fotoDorso: bool,
    ciudad: bool, domicilio: bool, calle: bool, terminos: bool)
  {
    /** `Object.values(validaciones).every(v => v)`. */
    predicate AllTrue() {
      nombre && apellido && edad && dni && fotoPerfil && fotoFrente && fotoDorso
      && ciudad && domicilio && calle && terminos
    }

    /** The flags with the flag of a photo kind raised. */
    function WithPhoto(kind: PhotoKind): (v: Validaciones)
      ensures v.AllTrue() <==> Others(kind)
      ensures v.PhotoFlag(kind)
    {
      match kind
      case FotoPerfil => this.(fotoPerfil := true)
      case FotoFrente => this.(fotoFrente := true)
      case FotoDorso => this.(fotoDorso := true)
    }

    function PhotoFlag(kind: PhotoKind): bool {
      match kind
      case FotoPerfil => fotoPerfil
      case FotoFrente => fotoFrente
      case FotoDorso => fotoDorso
    }

    /** Every flag other than the one of `kind` is raised. */
    predicate Others(kind: PhotoKind) {
      nombre && apellido && edad && dni && ciudad && domicilio && calle && terminos
      && (kind == FotoPerfil || fotoPerfil) && (kind == FotoFrente || fotoFrente)
      && (kind == FotoDorso || fotoDorso)
    }
  }

  /** The initial flags: every field starts invalid. */
  const NoneValid := Validaciones(false, false, false, false, false, false, false, false, false, false, false)

  datatype PhotoKind = FotoPerfil | FotoFrente | FotoDorso

  /** What the image picker returned: cancelled, or the picked assets' URIs. */
  datatype PickResult = Canceled | Picked(uris: seq<string>)

  /** The `usuarios` update sent on submit; NaN from `parseInt` is `None`. */
  datatype ProfileUpdate = ProfileUpdate(
    userId: string, nombre: string, apellido: string, edad: Option<int>, dni: Option<int>,
    fotoPerfil: string, dniFrente: string, dniDorso: string, dniVerificado: bool, perfilCompleto: bool,
    ciudad: string, domicilio: string, calle: string)

  datatype Alert = Alert(title: string, message: string)

  /** The public URLs of the three uploaded photos: profile, DNI front, DNI back. */
  datatype Uploads = Uploads(perfil: string, frente: string, dorso: string)

  /** The alert shown when the camera (DNI photos) or the gallery (profile photo) is refused. */
  function PermissionAlert(kind: PhotoKind): Alert {
    if kind == FotoPerfil then Alert("Permiso requerido", "Se necesita permiso para acceder a la galería.")
    else Alert("Permiso requerido", "Se necesita permiso para usar la cámara.")
  }

  /** What one submit did: its alert, the update it sent, and whether it went back home. */
  datatype SubmitOutcome = SubmitOutcome(alert: Alert, update: Option<ProfileUpdate>, navigateHome: bool)

  class ProfileForm {
    var nombre: string
    var apellido: string
    var edad: string
    var dni: string
    var fotoPerfil: Option<string>
    var fotoFrente: Option<string>
    var fotoDorso: Option<string>
    var aceptaTerminos: bool
    var subiendo: bool
    var ciudad: string
    var domicilio: string
    var calle: string
    var validaciones: Validaciones

    function Photo(kind: PhotoKind): Option<string>
      reads this
    {
      match kind
      case FotoPerfil => fotoPerfil
      case FotoFrente => fotoFrente
      case FotoDorso => fotoDorso
    }

    /** Every flag is the check of its own field, and a photo flag means a photo was picked. */
    predicate Valid()
      reads this
    {
validaciones.terminos == aceptaTerminos
      && validaciones.nombre == NombreValido(nombre)
      && validaciones.apellido == ApellidoValido(apellido)
      && validaciones.edad == EdadValida(edad)
      && validaciones.dni == DniValido(dni)
      && validaciones.ciudad == CiudadValida(ciudad)
      && validaciones.domicilio == TextoNoVacio(domicilio)
      && validaciones.calle == TextoNoVacio(calle)
      && validaciones.fotoPerfil == fotoPerfil.Some?
      && validaciones.fotoFrente == fotoFrente.Some?
      && validaciones.fotoDorso == fotoDorso.Some?
    }

    constructor ()
      ensures Valid()
      ensures nombre == "" && apellido == "" && edad == "" && dni == ""
      ensures fotoPerfil == None && fotoFrente == None && fotoDorso == None
      ensures !aceptaTerminos && !subiendo && ciudad == "" && domicilio == "" && calle == ""
      ensures validaciones == NoneValid
    {
      nombre, apellido, edad, dni := "", "", "", "";
      fotoPerfil, fotoFrente, fotoDorso := None, None, None;
      aceptaTerminos, subiendo := false, false;
      ciudad, domicilio, calle := "", "", "";
      validaciones := NoneValid;
      assert !IsAsciiLetter(' ') && IsBlank("");
    }

    /** Every flag is raised: the condition the submit button adds to "not uploading". */
    predicate AllValid()
      reads this
    {
      validaciones.AllTrue()
    }

    function ButtonEnabled(): (b: bool)
      reads this
      ensures b <==> AllValid() && !subiendo
    {
      AllValid() && !subiendo
    }

    method SetNombre(text: string)
      requires Valid()
      modifies this`nombre, this`validaciones
      ensures Valid() && nombre == text
      ensures validaciones == old(validaciones).(nombre := NombreValido(text))
    {
      nombre := text;
      validaciones := validaciones.(nombre := NombreValido(text));
    }

    method SetApellido(text: string)
      requires Valid()
      modifies this`apellido, this`validaciones
      ensures Valid() && apellido == text
      ensures validaciones == old(validaciones).(apellido := ApellidoValido(text))
    {
      apellido := text;
      validaciones := validaciones.(apellido := ApellidoValido(text));
    }

    method SetEdad(text: string)
      requires Valid()
      modifies this`edad, this`validaciones
      ensures Valid() && edad == text
      ensures validaciones == old(validaciones).(edad := EdadValida(text))
    {
      edad := text;
      validaciones := validaciones.(edad := EdadValida(text));
    }

    method SetDni(text: string)
      requires Valid()
      modifies this`dni, this`validaciones
      ensures Valid() && dni == text
      ensures validaciones == old(validaciones).(dni := DniValido(text))
    {
      dni := text;
      validaciones := validaciones.(dni := DniValido(text));
    }

    method SetCiudad(value: string)
      requires Valid()
      modifies this`ciudad, this`validaciones
      ensures Valid() && ciudad == value
      ensures validaciones == old(validaciones).(ciudad := CiudadValida(value))
    {
      ciudad := value;
      validaciones := validaciones.(ciudad := value != "");
    }

    method SetDomicilio(text: string)
      requires Valid()
      modifies this`domicilio, this`validaciones
      ensures Valid() && domicilio == text
      ensures validaciones == old(validaciones).(domicilio := TextoNoVacio(text))
    {
      domicilio := text;
      validaciones := validaciones.(domicilio := TextoNoVacio(text));
    }

    method SetCalle(text: string)
      requires Valid()
      modifies this`calle, this`validaciones
      ensures Valid() && calle == text
      ensures validaciones == old(validaciones).(calle := TextoNoVacio(text))
    {
      calle := text;
      validaciones := validaciones.(calle := TextoNoVacio(text));
    }

    method SetAceptaTerminos(value: bool)
      requires Valid()
      modifies this`aceptaTerminos, this`validaciones
      ensures Valid() && aceptaTerminos == value
      ensures validaciones == old(validaciones).(terminos := value)
    {
      aceptaTerminos := value;
      validaciones := validaciones.(terminos := value);
    }

    /** Stores a picked profile photo and raises its flag. */
    method StoreFotoPerfil(uri: string)
      requires Valid()
      modifies this`fotoPerfil, this`validaciones
      ensures Valid() && fotoPerfil == Some(uri)
      ensures validaciones == old(validaciones).(fotoPerfil := true)
    {
      fotoPerfil := Some(uri);
      validaciones := validaciones.(fotoPerfil := true);
    }

    /** Stores a picked photo of the front of the DNI and raises its flag. */
    method StoreFotoFrente(uri: string)
      requires Valid()
      modifies this`fotoFrente, this`validaciones
      ensures Valid() && fotoFrente == Some(uri)
      ensures validaciones == old(validaciones).(fotoFrente := true)
    {
      fotoFrente := Some(uri);
      validaciones := validaciones.(fotoFrente := true);
    }

    /** Stores a picked photo of the back of the DNI and raises its flag. */
    method StoreFotoDorso(uri: string)
      requires Valid()
      modifies this`fotoDorso, this`validaciones
      ensures Valid() && fotoDorso == Some(uri)
      ensures validaciones == old(validaciones).(fotoDorso := true)
    {
      fotoDorso := Some(uri);
      validaciones := validaciones.(fotoDorso := true);
    }

    /**
     * `seleccionarImagen`: the DNI photos ask for the camera, the profile photo for the
     * gallery; a refused permission only shows an alert. Only a granted permission and a
     * non-cancelled pick with at least one asset store the first asset's URI and raise that
     * photo's flag; nothing else changes.
     */
    method SeleccionarImagen(kind: PhotoKind, permissionGranted: bool, result: PickResult)
      returns (alert: Option<Alert>)
      requires Valid()
      modifies this`fotoPerfil, this`fotoFrente, this`fotoDorso, this`validaciones
      ensures Valid()
      ensures alert.Some? <==> !permissionGranted
      ensures alert.Some? ==> alert.value == PermissionAlert(kind)
      ensures var picked := permissionGranted && result.Picked? && |result.uris| > 0;
        (picked ==> Photo(kind) == Some(result.uris[0])
                    && validaciones == old(validaciones).WithPhoto(kind))
        && (!picked ==> Photo(kind) == old(Photo(kind)) && validaciones == old(validaciones))
      ensures forall other: PhotoKind | other != kind :: Photo(other) == old(Photo(other))
    {
      alert := if permissionGranted then None else Some(PermissionAlert(kind));
      if permissionGranted && result.Picked? && |result.uris| > 0 {
        match kind {
          case FotoPerfil => StoreFotoPerfil(result.uris[0]);
          case FotoFrente => StoreFotoFrente(result.uris[0]);
          case FotoDorso => StoreFotoDorso(result.uris[0]);
        }
      }
    }

    /** The ten truthiness checks at the top of `enviarFormulario`. */
    predicate FieldsPresent()
      reads this
    {
      nombre != "" && apellido != "" && edad != "" && dni != ""
      && Truthy(fotoFrente) && Truthy(fotoDorso) && Truthy(fotoPerfil)
      && ciudad != "" && domicilio != "" && calle != ""
    }

    /**
     * An enabled button already guarantees the submit checks, except that a picked photo
     * whose URI is empty still fails the presence check.
     */
    lemma EnabledButtonPassesChecks()
      requires Valid() && ButtonEnabled()
      requires Truthy(fotoPerfil) && Truthy(fotoFrente) && Truthy(fotoDorso)
      ensures FieldsPresent() && aceptaTerminos
    {
      assert validaciones.domicilio && validaciones.calle;
      assert domicilio != "" by { assert IsBlank(""); }
      assert calle != "" by { assert IsBlank(""); }
    }

    /**
     * `enviarFormulario`: missing values, then unaccepted terms, abort with an alert;
     * otherwise the photos are uploaded and the profile update is sent, marking the profile
     * complete with the DNI unverified. The result of the update itself is not checked. A
     * missing user or a failed upload ends in the error alert. Uploading is off at the end.
     */
    method EnviarFormulario(userId: Option<string>, uploads: Option<Uploads>) returns (r: SubmitOutcome)
      requires Valid()
      modifies this`subiendo
      ensures Valid()
      ensures FieldsPresent() && aceptaTerminos ==> !subiendo
      ensures !FieldsPresent() ==>
        r == SubmitOutcome(Alert("Faltan datos", "Por favor completá todos los campos."), None, false)
        && subiendo == old(subiendo)
      ensures FieldsPresent() && !aceptaTerminos ==>
        r == SubmitOutcome(Alert("Términos", "Debés aceptar los términos y condiciones."), None, false)
        && subiendo == old(subiendo)
      ensures r.update.Some? <==> FieldsPresent() && aceptaTerminos && userId.Some? && uploads.Some?
      ensures r.update.Some? ==> r.navigateHome && r.alert == Alert("✅ Éxito", "Datos guardados correctamente.")
      ensures r.update.Some? ==> r.update.value == ProfileUpdate(
        userId.value, nombre, apellido, ParseInt(edad), ParseInt(dni),
        uploads.value.perfil, uploads.value.frente, uploads.value.dorso, false, true,
        ciudad, domicilio, calle)
      ensures FieldsPresent() && aceptaTerminos && r.update.None? ==>
        r == SubmitOutcome(Alert("❌ Error", "No se pudo enviar la información."), None, false)
    {
      if !FieldsPresent() {
        return SubmitOutcome(Alert("Faltan datos", "Por favor completá todos los campos."), None, false);
      }
      if !aceptaTerminos {
        return SubmitOutcome(Alert("Términos", "Debés aceptar los términos y condiciones."), None, false);
      }
      subiendo := true;
      if userId.None? || uploads.None? {
        r := SubmitOutcome(Alert("❌ Error", "No se pudo enviar la información."), None, false);
      } else {
        var update := ProfileUpdate(
          userId.value, nombre, apellido, ParseInt(edad), ParseInt(dni),
          uploads.value.perfil, uploads.value.frente, uploads.value.dorso, false, true,
          ciudad, domicilio, calle);
        r := SubmitOutcome(Alert("✅ Éxito", "Datos guardados correctamente."), Some(update), true);
      }
      subiendo := false;
    }
  }
}
