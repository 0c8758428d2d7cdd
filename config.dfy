/**
 * The authorization registry: a fixed set of administrators, a set of users granted access
 * at run time, and the per-area access keys.
 */
module Config {
  import opened Wrappers

  /** The administrators' Telegram IDs. */
  const ADMINISTRADORES: set<int> := {146814016}

  /** The access key of each production area. */
  const CLAVES_ACCESO: map<string, string> := map[
    "sardina" := "123",
    "mesa" := "123",
    "linea" := "123",
    "empaque" := "123",
    "trabajadores" := "123",
    "reportes" := "123"]

  // ---------------------------------------------------------------------
  // The registry as values: what `autorizado`, the grant and the revoke compute

  /** `autorizado(id)`: granted at run time, or an administrator. */
  predicate Authorized(autorizados: set<int>, admins: set<int>, id: int): (r: bool)
    ensures id in admins ==> r
    ensures id !in admins ==> (r <==> id in autorizados)
  {
    id in autorizados || id in admins
  }

  /** The grant set after `agregar_usuario_autorizado(id)`: administrators are never added. */
  function Grant(autorizados: set<int>, admins: set<int>, id: int): (r: set<int>)
    ensures id in admins ==> r == autorizados
    ensures id !in admins ==> id in r && r - {id} == autorizados - {id}
  {
    if id !in admins then autorizados + {id} else autorizados
  }

  /** The grant set after `remover_usuario_autorizado(id)`. */
  function Revoke(autorizados: set<int>, id: int): (r: set<int>)
    ensures id !in r && r + {id} == autorizados + {id}
  {
    if id in autorizados then autorizados - {id} else autorizados
  }

  /** A grant makes the user authorized. */
  lemma GrantAuthorizes(autorizados: set<int>, admins: set<int>, id: int)
    ensures Authorized(Grant(autorizados, admins, id), admins, id)
  {
  }

  /** Granting twice is granting once. */
  lemma GrantIdempotent(autorizados: set<int>, admins: set<int>, id: int)
    ensures Grant(Grant(autorizados, admins, id), admins, id) == Grant(autorizados, admins, id)
  {
  }

  /** No administrator ever enters the grant set, so the two sets stay disjoint. */
  lemma GrantKeepsDisjoint(autorizados: set<int>, admins: set<int>, id: int)
    requires autorizados !! admins
    ensures Grant(autorizados, admins, id) !! admins
  {
  }

  /** A grant or a revoke changes whether `other` is authorized only when `other` is `id`. */
  lemma ChangesOnlyTarget(autorizados: set<int>, admins: set<int>, id: int, other: int)
    requires other != id
    ensures Authorized(Grant(autorizados, admins, id), admins, other) == Authorized(autorizados, admins, other)
    ensures Authorized(Revoke(autorizados, id), admins, other) == Authorized(autorizados, admins, other)
  {
  }

  /** After a revoke a non-administrator is no longer authorized; an administrator still is. */
  lemma RevokeDeauthorizes(autorizados: set<int>, admins: set<int>, id: int)
    ensures Authorized(Revoke(autorizados, id), admins, id) <==> id in admins
  {
  }

  /** Revoking a user who was never granted changes nothing. */
  lemma RevokeAbsent(autorizados: set<int>, id: int)
    requires id !in autorizados
    ensures Revoke(autorizados, id) == autorizados
  {
  }

  /** Revoking after granting restores the grant set of a user who had not been granted. */
  lemma RevokeUndoesGrant(autorizados: set<int>, admins: set<int>, id: int)
    requires id !in autorizados
    ensures Revoke(Grant(autorizados, admins, id), id) == autorizados
  {
  }

  // ---------------------------------------------------------------------
  // validar_clave

  /**
   * `validar_clave(area, clave)`: `CLAVES_ACCESO.get(area) == clave`.  `None` stands for an area
   * that is not a string at all (a missing `area_key`), which `get` maps to `None`.
   */
  function ValidarClave(area: Option<string>, clave: string): (ok: bool)
    ensures ok ==> area.Some? && area.value in CLAVES_ACCESO
  {
    match area
    case None => false
    case Some(a) => a in CLAVES_ACCESO && CLAVES_ACCESO[a] == clave
  }

  /** The six areas, all with the key `"123"`: a key is accepted exactly for them and exactly that key. */
  lemma ValidarClaveExact(area: string, clave: string)
    ensures ValidarClave(Some(area), clave)
            <==> area in {"sardina", "mesa", "linea", "empaque", "trabajadores", "reportes"} && clave == "123"
  {
  }

  /** An area without an access key never validates, and neither does a missing area. */
  lemma UnknownAreaFails(area: Option<string>, clave: string)
    requires area.None? || area.value !in CLAVES_ACCESO
    ensures !ValidarClave(area, clave)
  {
  }

  // ---------------------------------------------------------------------
  // The module-level state of config.py as an object

  /** `ADMINISTRADORES` (never changed) and `USUARIOS_AUTORIZADOS` (changed in place). */
  class Registry {
    const administradores: set<int>
    var autorizados: set<int>

    /** No administrator is in the grant set; it starts empty and grants skip administrators. */
    ghost predicate Valid()
      reads this
    {
      autorizados !! administradores
    }

    /** The state at import time: the fixed administrators and an empty grant set. */
    constructor()
      ensures Valid()
      ensures administradores == ADMINISTRADORES && autorizados == {}
    {
      administradores := ADMINISTRADORES;
      autorizados := {};
    }

    /** `autorizado(user_id)`. */
    predicate Autorizado(userId: int): (r: bool)
      reads this
      ensures userId in administradores ==> r
      ensures userId !in administradores ==> (r <==> userId in autorizados)
    {
      Authorized(autorizados, administradores, userId)
    }

    /** `es_admin(user_id)`. */
    predicate EsAdmin(userId: int): (r: bool)
      reads this
      ensures r ==> Autorizado(userId)
      ensures Valid() && r ==> userId !in autorizados
    {
      userId in administradores
    }

    /** `agregar_usuario_autorizado(user_id)`: add the user unless they are an administrator. */
    method AgregarUsuarioAutorizado(userId: int)
      requires Valid()
      modifies this
      ensures Valid()
      ensures autorizados == Grant(old(autorizados), administradores, userId)
      ensures Autorizado(userId)
    {
      if userId !in administradores {
        autorizados := autorizados + {userId};
      }
    }

    /** `remover_usuario_autorizado(user_id)`: remove the user if present. */
    method RemoverUsuarioAutorizado(userId: int)
      requires Valid()
      modifies this
      ensures Valid()
      ensures autorizados == Revoke(old(autorizados), userId)
      ensures Autorizado(userId) <==> EsAdmin(userId)
    {
      if userId in autorizados {
        autorizados := autorizados - {userId};
      }
    }
  }
}
