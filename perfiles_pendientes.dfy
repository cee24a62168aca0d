/**
 * The administrator's queue of profiles awaiting DNI verification: which users are
 * pending, and how verifying or rejecting one removes it from the local list.
 */
module PerfilesPendientes {
  import opened Wrappers
  import opened Seqs
  import opened JsText

  /** A `usuarios` row with the columns the queue reads and writes; booleans may be null. */
  datatype Usuario = Usuario(id: string, nombre: Option<string>, fotoPerfil: Option<string>,
                             dniVerificado: Option<bool>, perfilCompleto: Option<bool>)

  /** `dni_verificado is false and perfil_completo is true`: null matches neither test. */
  predicate Pending(u: Usuario) {
    u.perfilCompleto == Some(true) && u.dniVerificado == Some(false)
  }

  function IsPending(): Usuario -> bool {
    (u: Usuario) => Pending(u)
  }

  /** The pending-profiles query over the `usuarios` table, in table order. */
  function PendingQuery(table: seq<Usuario>): (r: seq<Usuario>)
    ensures forall i | 0 <= i < |r| :: r[i] in table && Pending(r[i])
    ensures forall i | 0 <= i < |table| && Pending(table[i]) :: table[i] in r
  {
    Filter(table, IsPending())
  }

  function HasOtherId(id: string): Usuario -> bool {
    (u: Usuario) => u.id != id
  }

  /** `prev.filter((u) => u.id !== usuarioId)`. */
  function WithoutUser(perfiles: seq<Usuario>, id: string): (r: seq<Usuario>)
    ensures forall i | 0 <= i < |r| :: r[i] in perfiles && r[i].id != id
    ensures forall i | 0 <= i < |perfiles| && perfiles[i].id != id :: perfiles[i] in r
  {
    Filter(perfiles, HasOtherId(id))
  }

  lemma WithoutUserKeepsOrder(perfiles: seq<Usuario>, id: string)
    ensures IsSubsequence(WithoutUser(perfiles, id), perfiles)
  {
    FilterIsSubsequence(perfiles, HasOtherId(id));
  }

  datatype Action = Verify | Reject

  /** The row update each action sends: verify sets `dni_verificado`, reject clears `perfil_completo`. */
  function Apply(action: Action, u: Usuario): Usuario {
    match action
    case Verify => u.(dniVerificado := Some(true))
    case Reject => u.(perfilCompleto := Some(false))
  }

  /** Either action takes the user out of the pending set and changes nothing else of the row. */
  lemma ActionEndsPending(action: Action, u: Usuario)
    ensures !Pending(Apply(action, u))
    ensures Apply(action, u).id == u.id && Apply(action, u).nombre == u.nombre
    ensures Apply(action, u).fotoPerfil == u.fotoPerfil
  {
  }

  function UpdateWhere(action: Action, id: string): Usuario -> Usuario {
    (u: Usuario) => if u.id == id then Apply(action, u) else u
  }

  /** `update(...).eq('id', id)` on the table. */
  function UpdateTable(table: seq<Usuario>, action: Action, id: string): (r: seq<Usuario>)
    ensures |r| == |table|
    ensures forall i | 0 <= i < |table| :: r[i] == UpdateWhere(action, id)(table[i])
  {
    Map(table, UpdateWhere(action, id))
  }

  /**
   * Removing the user from the local list gives exactly what re-running the pending query
   * after the update would give.
   */
  lemma LocalRemovalMatchesRequery(table: seq<Usuario>, action: Action, id: string)
    ensures PendingQuery(UpdateTable(table, action, id)) == WithoutUser(PendingQuery(table), id)
  {
    var f, p, q := UpdateWhere(action, id), IsPending(), HasOtherId(id);
    forall u: Usuario ensures p(f(u)) == (p(u) && q(u)) && (p(f(u)) ==> f(u) == u) {
      ActionEndsPending(action, u);
    }
    FilterAfterMap(table, f, p, q);
  }

  const AvatarBase := "https://ui-avatars.com/api/?background=00B8A9&color=fff&name="

  /** `item.foto_perfil || base + (item.nombre || 'U')`. */
  function Avatar(u: Usuario): (url: string)
    ensures Truthy(u.fotoPerfil) ==> url == u.fotoPerfil.value
    ensures !Truthy(u.fotoPerfil) && Truthy(u.nombre) ==> url == AvatarBase + u.nombre.value
    ensures !Truthy(u.fotoPerfil) && !Truthy(u.nombre) ==> url == AvatarBase + "U"
  {
    if Truthy(u.fotoPerfil) then u.fotoPerfil.value
    else AvatarBase + (if Truthy(u.nombre) then u.nombre.value else "U")
  }

  /** Without a photo the avatar is always a generated URL, never empty. */
  lemma AvatarNeverEmpty(u: Usuario)
    ensures Avatar(u) != ""
    ensures !Truthy(u.fotoPerfil) ==> Avatar(u)[..|AvatarBase|] == AvatarBase
  {
  }

  class PendingProfilesScreen {
    var perfiles: seq<Usuario>
    var cargando: bool

    constructor ()
      ensures perfiles == [] && cargando
    {
      perfiles, cargando := [], true;
    }

    /**
     * `obtenerPerfilesPendientes`: the pending query run over the `usuarios` table (`None`
     * when the query failed and returned no data, which leaves an empty list).
     */
    method ObtenerPerfilesPendientes(table: Option<seq<Usuario>>)
      modifies this
      ensures table.Some? ==> perfiles == PendingQuery(table.value)
      ensures table.None? ==> perfiles == []
      ensures forall u | u in perfiles :: Pending(u)
      ensures !cargando
    {
      cargando := true;
      perfiles := if table.Some? then PendingQuery(table.value) else [];
      cargando := false;
    }

    /**
     * `verificarPerfil`: a successful update removes exactly that user from the list and
     * confirms it; a failed one leaves the list unchanged and says nothing.
     */
    method VerificarPerfil(usuarioId: string, updateOk: bool) returns (alert: Option<string>)
      modifies this`perfiles
      ensures updateOk ==> perfiles == WithoutUser(old(perfiles), usuarioId) && alert == Some("Perfil verificado")
      ensures !updateOk ==> perfiles == old(perfiles) && alert.None?
    {
      alert := None;
      if updateOk {
        perfiles := WithoutUser(perfiles, usuarioId);
        alert := Some("Perfil verificado");
      }
    }

    /**
     * `rechazarPerfil`: nothing is sent unless the confirmation dialog is accepted; then a
     * successful update removes exactly that user, and a failed one leaves the list unchanged.
     */
    method RechazarPerfil(usuarioId: string, confirmed: bool, updateOk: bool)
      returns (sent: bool, alert: Option<string>)
      modifies this`perfiles
      ensures sent <==> confirmed
      ensures confirmed && updateOk ==>
        perfiles == WithoutUser(old(perfiles), usuarioId) && alert == Some("Perfil rechazado")
      ensures !(confirmed && updateOk) ==> perfiles == old(perfiles) && alert.None?
    {
      sent, alert := confirmed, None;
      if confirmed && updateOk {
        perfiles := WithoutUser(perfiles, usuarioId);
        alert := Some("Perfil rechazado");
      }
    }
  }
}
