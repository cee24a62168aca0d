/**
 * The home screen: the per-category count of active services, the category grid with its
 * search and "only with services" filters, the profile and DNI banners, the gates in front
 * of hiring and offering, and the unread-notification badge.
 */
module Home {
  import opened Wrappers
  import opened Seqs
  import opened JsText

  /** The grid, section by section, in display order. */
  const Sections: seq<(string, seq<string>)> := [
    ("Hogar", ["Electricista", "Gasista", "Plomero", "Pintor", "Carpintero", "Cerrajero", "Jardinero",
               "Albañil", "Tapicero", "Reparaciones en el hogar", "Servicio de limpieza",
               "Montador de muebles", "Montador de estructuras", "Decorador de interiores"]),
    ("Transporte", ["Fletes", "Mudanzas", "Chofer privado", "Delivery", "Instructor de manejo",
                    "Lavado de autos"]),
    ("Tecnología", ["Programador", "Técnico de PC", "Tester QA", "Desarrollador web",
                    "Desarrollador de apps", "Instalador de cámaras", "Community Manager",
                    "Editor de video", "Diseñador UX/UI", "Redactor de contenidos",
                    "Gestor de ecommerce"]),
    ("Educación", ["Profesor particular", "Traductor", "Profesor de música", "Profesor de yoga"]),
    ("Profesionales", ["Contador", "Asistente contable", "Diseñador gráfico", "Consultor de negocios",
                       "Abogado", "Consultor ambiental", "Marketing", "Gestor de redes",
                       "Traductor jurado", "Atención al cliente", "Asistente virtual",
                       "Coach financiero", "Coach de vida"]),
    ("Mascotas", ["Paseador de perros", "Veterinario", "guarderia de mascotas"]),
    ("Bienestar", ["Entrenador personal", "Masajista", "Estilista", "Maquillador profesional",
                   "Tatuador", "Manicurista", "Terapista ocupacional"]),
    ("Eventos", ["Organizador de eventos", "Fotógrafo", "Fotógrafo de producto", "Camarógrafo",
                 "Animador infantil", "Mozos para eventos", "Bartender", "Dj para eventos"]),
    ("Cuidados", ["Cuidado de niños", "Cuidado de adultos mayores", "Enfermero"]),
    ("Salud", ["Psicólogo", "Kinesiólogo", "Nutricionista"]),
    ("Construcción", ["Soldador", "Herrero", "Instalador de paneles solares",
                      "Reparador de electrodomésticos"]),
    ("Arte Y Cultura", ["Ilustrador", "Guionista", "Diseñador industrial", "Sastre", "Modista",
                        "Artesano"]),
    ("Oficios Generales", ["Encargado de depósito", "Camarero", "Panadero", "Pastelero",
                           "Personal de limpieza de oficinas", "Personal de seguridad"])
  ]

  // ---------------------------------------------------------------------------------------
  // Counting active services per category

  /** A `servicios` row as selected for counting (`categoria, estado`); both may be null. */
  datatype ServiceRow = ServiceRow(categoria: Option<string>, estado: Option<string>)

  predicate IsQuote(c: char) {
    c == '\'' || c == '"'
  }

  predicate NotQuote(c: char) {
    !IsQuote(c)
  }

  /** `estado.replace(/['"]+/g, '').trim()`: no quote is left, nor white space at either end. */
  function CleanEstado(estado: string): (r: string)
    ensures forall k | 0 <= k < |r| :: !IsQuote(r[k])
    ensures r == [] || (!IsSpace(r[0]) && !IsSpace(r[|r| - 1]))
  {
    var unquoted := Filter(estado, NotQuote);
    TrimQuoteFree(unquoted);
    Trim(unquoted)
  }

  /** Trimming text without quotes leaves text without quotes. */
  lemma TrimQuoteFree(s: string)
    requires forall k | 0 <= k < |s| :: !IsQuote(s[k])
    ensures forall k | 0 <= k < |Trim(s)| :: !IsQuote(Trim(s)[k])
    ensures Trim(s) == [] || (!IsSpace(Trim(s)[0]) && !IsSpace(Trim(s)[|Trim(s)| - 1]))
  {
    TrimShape(s);
    var i, j :| 0 <= i <= j <= |s| && Trim(s) == s[i..j] && AllSpace(s[..i]) && AllSpace(s[j..]);
    assert forall k | 0 <= k < |Trim(s)| :: Trim(s)[k] == s[i + k];
  }

  /** A row is counted when its cleaned estado is exactly 'activo' and its categoria is truthy. */
  predicate Qualifies(row: ServiceRow) {
    row.estado.Some? && CleanEstado(row.estado.value) == "activo" && Truthy(row.categoria)
  }

  predicate CountsFor(row: ServiceRow, categoria: string) {
    Qualifies(row) && row.categoria.value == categoria
  }

  /** The number of qualifying rows of `categoria`. */
  function CountIn(rows: seq<ServiceRow>, categoria: string): nat {
    if rows == [] then 0
    else CountIn(rows[..|rows| - 1], categoria) + (if CountsFor(rows[|rows| - 1], categoria) then 1 else 0)
  }

  /**
   * `actualizarConteos`' loop: a map holding, for every category with at least one
   * qualifying row, the number of such rows, and no other key.
   */
  method CountActiveByCategory(rows: seq<ServiceRow>) returns (conteos: map<string, nat>)
    ensures forall c :: c in conteos <==> CountIn(rows, c) > 0
    ensures forall c | c in conteos :: conteos[c] == CountIn(rows, c)
  {
    conteos := map[];
    var i := 0;
    while i < |rows|
      invariant 0 <= i <= |rows|
      invariant forall c :: c in conteos <==> CountIn(rows[..i], c) > 0
      invariant forall c | c in conteos :: conteos[c] == CountIn(rows[..i], c)
    {
      var servicio := rows[i];
      if Qualifies(servicio) {
        var categoria := servicio.categoria.value;
        if categoria !in conteos {
          conteos := conteos[categoria := 1];
        } else {
          conteos := conteos[categoria := conteos[categoria] + 1];
        }
      }
      assert rows[..i + 1][..i] == rows[..i];
      i := i + 1;
    }
    assert rows[..|rows|] == rows;
  }

  /** A row without a truthy categoria is never counted, so the empty category never appears. */
  lemma {:induction false} EmptyCategoryNeverCounted(rows: seq<ServiceRow>)
    ensures CountIn(rows, "") == 0
  {
    if rows != [] {
      EmptyCategoryNeverCounted(rows[..|rows| - 1]);
    }
  }

  /** Rows whose estado is not 'activo' after cleaning do not change any count. */
  lemma {:induction false} InactiveRowIgnored(rows: seq<ServiceRow>, row: ServiceRow, categoria: string)
    requires !Qualifies(row)
    ensures CountIn(rows + [row], categoria) == CountIn(rows, categoria)
  {
    assert (rows + [row])[..|rows + [row]| - 1] == rows;
  }

  /**
   * Any mixture of quotes and white space around 'activo' cleans to 'activo', so
   * `"activo"`, `'activo'` and ` activo ` all count.
   */
  lemma QuotedActivoIsActive(before: string, after: string)
    requires forall k | 0 <= k < |before| :: IsQuote(before[k]) || IsSpace(before[k])
    requires forall k | 0 <= k < |after| :: IsQuote(after[k]) || IsSpace(after[k])
    ensures CleanEstado(before + "activo" + after) == "activo"
  {
    QuotesRemovedAround(before, after);
    QuotesAndSpacesLeaveSpaces(before);
    QuotesAndSpacesLeaveSpaces(after);
    TrimPadded(Filter(before, NotQuote), "activo", Filter(after, NotQuote));
  }

  /** Quote removal works piecewise and leaves 'activo' alone. */
  lemma QuotesRemovedAround(before: string, after: string)
    ensures Filter(before + "activo" + after, NotQuote) == Filter(before, NotQuote) + "activo" + Filter(after, NotQuote)
  {
    FilterAppend(before + "activo", after, NotQuote);
    FilterAppend(before, "activo", NotQuote);
    ActivoHasNoQuote();
  }

  lemma ActivoHasNoQuote()
    ensures Filter("activo", NotQuote) == "activo"
  {
    FilterKeepsAll("activo", NotQuote);
  }

  /** Removing the quotes from quotes and white space leaves only white space. */
  lemma QuotesAndSpacesLeaveSpaces(s: string)
    requires forall k | 0 <= k < |s| :: IsQuote(s[k]) || IsSpace(s[k])
    ensures AllSpace(Filter(s, NotQuote))
  {
    var a := Filter(s, NotQuote);
    forall k | 0 <= k < |a| ensures IsSpace(a[k]) {
      var j :| 0 <= j < |s| && s[j] == a[k];
    }
  }

  // Category grid

  /** `conteosPorCategoria[cat] > 0`, with a missing key reading as `undefined`. */
  predicate HasServices(conteos: map<string, nat>, categoria: string) {
    categoria in conteos && conteos[categoria] > 0
  }

  /** The search matches the lower-cased name, and the availability filter, when on, needs a count. */
  predicate Visible(categoria: string, busqueda: string, soloConServicios: bool, conteos: map<string, nat>): (ok: bool)
    ensures busqueda == "" && !soloConServicios ==> ok
    ensures ok && soloConServicios ==> categoria in conteos
  {
    IncludesEmpty(ToLower(categoria));
    Includes(ToLower(categoria), ToLower(busqueda)) && (!soloConServicios || HasServices(conteos, categoria))
  }

  /** The categories of one section that survive the filters, in their original order. */
  function Filtradas(cats: seq<string>, busqueda: string, soloConServicios: bool, conteos: map<string, nat>): (r: seq<string>)
    ensures IsSubsequence(r, cats)
    ensures forall k | 0 <= k < |r| :: Visible(r[k], busqueda, soloConServicios, conteos)
    ensures forall k | 0 <= k < |cats| && Visible(cats[k], busqueda, soloConServicios, conteos) :: cats[k] in r
  {
    FilterIsSubsequence(cats, c => Visible(c, busqueda, soloConServicios, conteos));
    Filter(cats, c => Visible(c, busqueda, soloConServicios, conteos))
  }

  /** A section is rendered exactly when one of its categories is visible. */
  lemma SectionShownIff(cats: seq<string>, busqueda: string, soloConServicios: bool, conteos: map<string, nat>)
    ensures |Filtradas(cats, busqueda, soloConServicios, conteos)| > 0 <==>
      exists k | 0 <= k < |cats| :: Visible(cats[k], busqueda, soloConServicios, conteos)
  {
    var r := Filtradas(cats, busqueda, soloConServicios, conteos);
    if |r| > 0 {
      SubsequenceMembers(r, cats);
      var k :| 0 <= k < |cats| && cats[k] == r[0];
      assert Visible(cats[k], busqueda, soloConServicios, conteos);
    }
  }

  /** With an empty search and the availability filter off, every category is shown. */
  lemma EmptySearchShowsAll(cats: seq<string>, conteos: map<string, nat>)
    ensures Filtradas(cats, "", false, conteos) == cats
  {
    forall k | 0 <= k < |cats| ensures Visible(cats[k], "", false, conteos) {
      IncludesEmpty(ToLower(cats[k]));
    }
    FilterKeepsAll(cats, c => Visible(c, "", false, conteos));
  }

  // ---------------------------------------------------------------------------------------
  // Profile banners and action gates

  /** The `usuarios` row read by `cargarDatos`; every column may be null. */
  datatype Perfil = Perfil(perfilCompleto: Option<bool>, dniVerificado: Option<bool>,
                           fotoPerfil: Option<string>, rol: Option<string>)

  /** `perfil_completo === true`. */
  function PerfilCompleto(p: Perfil): bool {
    p.perfilCompleto == Some(true)
  }

  /** `perfil_completo && !dni_verificado`: the DNI-pending banner. */
  function MostrarCartelDni(p: Perfil): bool {
    p.perfilCompleto == Some(true) && p.dniVerificado != Some(true)
  }

  /** What tapping a category or the publish button does. */
  datatype Action = Alert(text: string) | Navigate(screen: string, categoria: Option<string>)

  /** Tapping a category: an incomplete profile blocks first, a pending DNI second. */
  function HireAction(perfilCompleto: bool, mostrarCartelDni: bool, categoria: string): Action {
    if !perfilCompleto then Alert("Debes completar tu perfil antes de contratar a algun servicio.")
    else if mostrarCartelDni then Alert("Debes verificar tu DNI antes de contratar a algun servicio.")
    else Navigate("PasarelaPago", Some(categoria))
  }

  /** The publish button: the same two gates, in the same order. */
  function OfferAction(perfilCompleto: bool, mostrarCartelDni: bool): Action {
    if !perfilCompleto then Alert("Debes completar tu perfil antes de ofrecer un servicio.")
    else if mostrarCartelDni then Alert("Debes verificar tu DNI antes de ofrecer un servicio.")
    else Navigate("OfrecerServicio", None)
  }

  /**
   * For a loaded profile, hiring and offering go ahead exactly when the profile is complete
   * and the DNI verified; both gates block on the same profiles, with the same reason.
   */
  lemma GatesFollowProfile(p: Perfil, categoria: string)
    ensures HireAction(PerfilCompleto(p), MostrarCartelDni(p), categoria).Navigate? <==>
      p.perfilCompleto == Some(true) && p.dniVerificado == Some(true)
    ensures (HireAction(PerfilCompleto(p), MostrarCartelDni(p), categoria) == Navigate("PasarelaPago", Some(categoria)))
      <==> OfferAction(PerfilCompleto(p), MostrarCartelDni(p)).Navigate?
    ensures !PerfilCompleto(p) ==> !MostrarCartelDni(p)
  {
  }

  /** `rol === 'admin' || rol === 'verificador'`: the pending-profiles shortcut is shown. */
  function ShowsReviewShortcut(rol: Option<string>): (shown: bool)
    ensures shown ==> Truthy(rol)
    ensures rol == None ==> !shown
  {
    rol == Some("admin") || rol == Some("verificador")
  }

  // ---------------------------------------------------------------------------------------
  // Unread badge

  /** A JSON column value as the client receives it. */
  datatype Value = Bool(b: bool) | Str(s: string) | Null

  /** A row as a map from column name to value. */
  type Row = map<string, Value>

  /** The row with only the selected columns, as a `select` of those columns returns it. */
  function Select(row: Row, columns: set<string>): (r: Row)
    ensures r.Keys == row.Keys * columns
    ensures forall c | c in r :: r[c] == row[c]
  {
    map c | c in row.Keys * columns :: row[c]
  }

  predicate IsUnread(row: Row) {
    "leido_por_receptor" in row && row["leido_por_receptor"] == Bool(false)
  }

  /** `filter(n => n.leido_por_receptor === false).length`. */
  function UnreadCount(rows: seq<Row>): (n: nat)
    ensures n <= |rows|
  {
    if rows == [] then 0 else (if IsUnread(rows[0]) then 1 else 0) + UnreadCount(rows[1..])
  }

  /** The rows the badge query returns: each row of the table with only `mensaje` and `leido`. */
  function BadgeRows(table: seq<Row>): (rows: seq<Row>)
    ensures |rows| == |table|
    ensures forall i | 0 <= i < |table| :: rows[i].Keys == table[i].Keys * {"mensaje", "leido"}
  {
    Seqs.Map(table, (r: Row) => Select(r, {"mensaje", "leido"}))
  }

  /**
   * The badge query selects only `mensaje` and `leido`, so no fetched row has a
   * `leido_por_receptor` column and the badge always counts zero.
   */
  lemma {:induction false} BadgeAlwaysZero(table: seq<Row>)
    ensures UnreadCount(BadgeRows(table)) == 0
  {
    var sel := BadgeRows(table);
    if table != [] {
      assert sel[1..] == BadgeRows(table[1..]);
      BadgeAlwaysZero(table[1..]);
      assert "leido_por_receptor" !in sel[0];
    }
  }

  // ---------------------------------------------------------------------------------------
  // Screen state

  /** The fields of the home screen that its loaders set. */
  class HomeScreen {
    var perfilCompleto: bool
    var mostrarCartelDni: bool
    var fotoPerfil: Option<string>
    var rol: Option<string>
    var notificacionesNoLeidas: nat
    var conteosPorCategoria: map<string, nat>
    var busqueda: string
    var soloConServicios: bool

    constructor ()
      ensures !perfilCompleto && !mostrarCartelDni && fotoPerfil == None && rol == None
      ensures notificacionesNoLeidas == 0 && conteosPorCategoria == map[]
      ensures busqueda == "" && !soloConServicios
    {
      perfilCompleto := false;
      mostrarCartelDni := false;
      fotoPerfil := None;
      rol := None;
      notificacionesNoLeidas := 0;
      conteosPorCategoria := map[];
      busqueda := "";
      soloConServicios := false;
    }

    /**
     * `cargarDatos`: without a signed-in user nothing changes; a fetched profile sets the
     * flags, photo and role; the badge is the unread count of the rows the badge query
     * returns from `table` (the user's received notifications), which is always zero.
     */
    method CargarDatos(signedIn: bool, perfil: Option<Perfil>, table: Option<seq<Row>>)
      modifies this`perfilCompleto, this`mostrarCartelDni, this`fotoPerfil, this`rol, this`notificacionesNoLeidas
      ensures !signedIn ==> unchanged(this)
      ensures signedIn && perfil.Some? ==>
        perfilCompleto == PerfilCompleto(perfil.value) && mostrarCartelDni == MostrarCartelDni(perfil.value)
        && fotoPerfil == (if Truthy(perfil.value.fotoPerfil) then perfil.value.fotoPerfil else None)
        && rol == (if Truthy(perfil.value.rol) then perfil.value.rol else None)
        && (ProfileButtonEnabled() <==> perfil.value.perfilCompleto == Some(true))
        && (ShowsReviewShortcut(rol) <==> perfil.value.rol == Some("admin") || perfil.value.rol == Some("verificador"))
      ensures signedIn && perfil.None? ==>
        perfilCompleto == old(perfilCompleto) && mostrarCartelDni == old(mostrarCartelDni)
        && fotoPerfil == old(fotoPerfil) && rol == old(rol)
      ensures signedIn ==> notificacionesNoLeidas == UnreadCount(BadgeRows(table.GetOr([])))
      ensures signedIn ==> notificacionesNoLeidas == 0
    {
      if !signedIn {
        return;
      }
      if perfil.Some? {
        var p := perfil.value;
        perfilCompleto := PerfilCompleto(p);
        mostrarCartelDni := MostrarCartelDni(p);
        fotoPerfil := if Truthy(p.fotoPerfil) then p.fotoPerfil else None;
        rol := if Truthy(p.rol) then p.rol else None;
      }
      BadgeAlwaysZero(table.GetOr([]));
      notificacionesNoLeidas := UnreadCount(BadgeRows(table.GetOr([])));
    }

    /** `actualizarConteos`: a failed query keeps the old counts; otherwise they are recomputed. */
    method ActualizarConteos(result: Option<seq<ServiceRow>>)
      modifies this`conteosPorCategoria
      ensures result.None? ==> conteosPorCategoria == old(conteosPorCategoria)
      ensures result.Some? ==> forall c :: c in conteosPorCategoria <==> CountIn(result.value, c) > 0
      ensures result.Some? ==> forall c | c in conteosPorCategoria :: conteosPorCategoria[c] == CountIn(result.value, c)
    {
      if result.None? {
        return;
      }
      conteosPorCategoria := CountActiveByCategory(result.value);
    }

    /** The "Ver servicios disponibles" checkbox. */
    method ToggleSoloConServicios()
      modifies this`soloConServicios
      ensures soloConServicios == !old(soloConServicios)
    {
      soloConServicios := !soloConServicios;
    }

    /** The profile button is enabled only for a complete profile. */
    function ProfileButtonEnabled(): (b: bool)
      reads this
      ensures b <==> perfilCompleto
    {
      perfilCompleto
    }
  }
}
