/**
 * The provider's own services: the pause/resume toggle, its button label, the display
 * defaults for the hire count and rating, and the five-star rating row.
 */
module MisServicios {
  import opened Wrappers

  datatype Servicio = Servicio(
    id: string, titulo: string, descripcion: string, estado: Option<string>,
    vecesContratado: Option<int>, calificacionPromedio: Option<real>)

  /** `estadoActual === 'pausado' ? 'activo' : 'pausado'`. */
  function ToggledEstado(estadoActual: Option<string>): (nuevo: string)
    ensures nuevo == "activo" <==> estadoActual == Some("pausado")
    ensures nuevo == "pausado" <==> estadoActual != Some("pausado")
  {
    if estadoActual == Some("pausado") then "activo" else "pausado"
  }

  /** Toggling twice gives back an 'activo' or 'pausado' status. */
  lemma ToggleTwice(estado: string)
    requires estado == "activo" || estado == "pausado"
    ensures ToggledEstado(Some(ToggledEstado(Some(estado)))) == estado
  {
  }

  /** Any other status, a missing one included, is paused by the first toggle and resumed by the next. */
  lemma ToggleFromOther(estado: Option<string>)
    requires estado != Some("pausado")
    ensures ToggledEstado(estado) == "pausado"
    ensures ToggledEstado(Some(ToggledEstado(estado))) == "activo"
  {
  }

  /** The action button's text. */
  function BotonPausa(estado: Option<string>): (text: string)
    ensures text == "Reanudar" <==> estado == Some("pausado")
    ensures text == "Reanudar" || text == "Pausar"
  {
    if estado == Some("pausado") then "Reanudar" else "Pausar"
  }

  /** Pressing the button labels it the other way once the toggle is stored. */
  lemma ButtonFollowsToggle(estado: Option<string>)
    ensures BotonPausa(Some(ToggledEstado(estado))) != BotonPausa(estado)
  {
  }

  /** `item.veces_contratado || 0`. */
  function VecesContratado(s: Servicio): (n: int)
    ensures s.vecesContratado.None? ==> n == 0
    ensures s.vecesContratado.Some? ==> n == s.vecesContratado.value
  {
    s.vecesContratado.GetOr(0)
  }

  /** `item.calificacion_promedio || 0`. */
  function Calificacion(s: Servicio): (c: real)
    ensures s.calificacionPromedio.None? ==> c == 0.0
    ensures s.calificacionPromedio.Some? ==> c == s.calificacionPromedio.value
  {
    s.calificacionPromedio.GetOr(0.0)
  }

  /** One rating icon: its key 1..5 and whether it is drawn filled. */
  datatype Star = Star(key: int, filled: bool)

  /** `renderEstrellas(calificacion)`: five icons, icon `i` filled exactly when `i <= calificacion`. */
  method RenderEstrellas(calificacion: real) returns (icons: seq<Star>)
    ensures |icons| == 5
    ensures forall i | 0 <= i < 5 :: icons[i] == Star(i + 1, (i + 1) as real <= calificacion)
  {
    icons := [];
    var i := 1;
    while i <= 5
      invariant 1 <= i <= 6 && |icons| == i - 1
      invariant forall k | 0 <= k < i - 1 :: icons[k] == Star(k + 1, (k + 1) as real <= calificacion)
    {
      icons := icons + [Star(i, i as real <= calificacion)];
      i := i + 1;
    }
  }

  function FilledCount(icons: seq<Star>): (n: nat)
    ensures n <= |icons|
  {
    if icons == [] then 0 else (if icons[0].filled then 1 else 0) + FilledCount(icons[1..])
  }

  /** The number of filled stars is the rating rounded down, kept within 0..5. */
  lemma FilledCountIsFloor(icons: seq<Star>, calificacion: real)
    requires |icons| == 5
    requires forall i | 0 <= i < 5 :: icons[i] == Star(i + 1, (i + 1) as real <= calificacion)
    ensures FilledCount(icons) == if calificacion < 0.0 then 0 else if calificacion >= 5.0 then 5 else calificacion.Floor
  {
    var c := calificacion;
    var t1 := icons[1..];
    var t2 := t1[1..];
    var t3 := t2[1..];
    var t4 := t3[1..];
    assert t4[1..] == [];
    assert t1[0] == icons[1] && t2[0] == icons[2] && t3[0] == icons[3] && t4[0] == icons[4];
    assert FilledCount(t4) == (if 5.0 <= c then 1 else 0);
    assert FilledCount(t3) == (if 4.0 <= c then 1 else 0) + FilledCount(t4);
    assert FilledCount(t2) == (if 3.0 <= c then 1 else 0) + FilledCount(t3);
    assert FilledCount(t1) == (if 2.0 <= c then 1 else 0) + FilledCount(t2);
    assert FilledCount(icons) == (if 1.0 <= c then 1 else 0) + FilledCount(t1);
    if c < 0.0 || c >= 5.0 {
    } else {
      var f := c.Floor;
      assert f as real <= c < f as real + 1.0;
      assert 0 <= f <= 4;
    }
  }

  /** A service without a rating shows five empty stars. */
  lemma NoRatingNoStars(s: Servicio, icons: seq<Star>)
    requires s.calificacionPromedio.None?
    requires |icons| == 5
    requires forall i | 0 <= i < 5 :: icons[i] == Star(i + 1, (i + 1) as real <= Calificacion(s))
    ensures FilledCount(icons) == 0
  {
    FilledCountIsFloor(icons, Calificacion(s));
  }

  /** What one card of the list shows for a service. */
  datatype Card = Card(titulo: string, descripcion: string, estado: Option<string>,
                       vecesContratado: int, estrellas: seq<Star>, boton: string)

  /**
   * `renderItem`: the card shows the hire count (0 when missing), five stars for the rating
   * (0 when missing) with its floor filled, and the pause/resume label for the status.
   */
  method RenderItem(s: Servicio) returns (card: Card)
    ensures card.titulo == s.titulo && card.descripcion == s.descripcion && card.estado == s.estado
    ensures card.vecesContratado == VecesContratado(s)
    ensures s.vecesContratado.None? ==> card.vecesContratado == 0
    ensures |card.estrellas| == 5
    ensures forall i | 0 <= i < 5 :: card.estrellas[i].key == i + 1
    ensures var c := Calificacion(s);
      FilledCount(card.estrellas) == if c < 0.0 then 0 else if c >= 5.0 then 5 else c.Floor
    ensures s.calificacionPromedio.None? ==> FilledCount(card.estrellas) == 0
    ensures card.boton == BotonPausa(s.estado)
  {
    var estrellas := RenderEstrellas(Calificacion(s));
    FilledCountIsFloor(estrellas, Calificacion(s));
    card := Card(s.titulo, s.descripcion, s.estado, VecesContratado(s), estrellas, BotonPausa(s.estado));
  }

  class MisServiciosScreen {
    var serviciosPublicados: seq<Servicio>

    constructor ()
      ensures serviciosPublicados == []
    {
      serviciosPublicados := [];
    }

    /**
     * `obtenerServicios`: without a user an alert is shown; a failed query keeps the list;
     * otherwise the list becomes the user's services.
     */
    method ObtenerServicios(signedIn: bool, publicados: Option<seq<Servicio>>) returns (alerted: bool)
      modifies this`serviciosPublicados
      ensures alerted <==> !signedIn
      ensures signedIn && publicados.Some? ==> serviciosPublicados == publicados.value
      ensures !(signedIn && publicados.Some?) ==> serviciosPublicados == old(serviciosPublicados)
    {
      if !signedIn {
        return true;
      }
      if publicados.Some? {
        serviciosPublicados := publicados.value;
      }
      alerted := false;
    }

    /**
     * `pausarServicio`: sends the toggled status for that service and reloads the list
     * (whatever the update's outcome).
     */
    method PausarServicio(id: string, estadoActual: Option<string>, signedIn: bool,
                          reloaded: Option<seq<Servicio>>)
      returns (update: (string, string))
      modifies this`serviciosPublicados
      ensures update == (id, ToggledEstado(estadoActual))
      ensures signedIn && reloaded.Some? ==> serviciosPublicados == reloaded.value
      ensures !(signedIn && reloaded.Some?) ==> serviciosPublicados == old(serviciosPublicados)
    {
      update := (id, if estadoActual == Some("pausado") then "activo" else "pausado");
      var _ := ObtenerServicios(signedIn, reloaded);
    }

    /**
     * `eliminarServicio`: sends the delete for that service id and reloads the list
     * (whatever the delete's outcome); the list shown is the reloaded one.
     */
    method EliminarServicio(id: string, signedIn: bool, reloaded: Option<seq<Servicio>>)
      returns (deleted: string)
      modifies this`serviciosPublicados
      ensures deleted == id
      ensures signedIn && reloaded.Some? ==> serviciosPublicados == reloaded.value
      ensures !(signedIn && reloaded.Some?) ==> serviciosPublicados == old(serviciosPublicados)
    {
      deleted := id;
      var _ := ObtenerServicios(signedIn, reloaded);
    }
  }
}
