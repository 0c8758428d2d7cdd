/**
 * The bot's top-level handlers: `/start` and `/menu` behind the authorization gate, the menu
 * buttons, the access request broadcast to the administrators, and the administrators'
 * approve/reject buttons, which grant or revoke access in the registry.
 *
 * Every message the bot gets through is appended to `outbox`.  Replies to the update being
 * handled are taken as delivered; the messages the program wraps in `try`/`except` (the request
 * to each administrator, the notice to the requester) are delivered exactly to the chats in the
 * `reachable` parameter, and a failure is swallowed.
 */
module Bot {
  import opened Wrappers
  import opened Text
  import Config

  /** What a message says, without its emoji and markup. */
  datatype Reply =
    | MenuPrincipal                                    // "Menú principal" with the seven area buttons
    | NoAutorizadoSolicitud                            // `/start` refused: the request has been sent
    | NoAutorizado                                     // `/menu` or a menu button refused: use /start
    | SolicitudAcceso(solicitante: int, username: string, aprobar: string, rechazar: string)  // and its buttons' data
    | Comando(text: string)                            // a menu button's data, echoed into the chat
    | SoloAdministradores                              // a non-administrator pressed approve/reject
    | Aprobado(who: string)
    | Rechazado(who: string)
    | AvisoAprobado                                    // to the requester, with the menu buttons
    | AvisoRechazado

  datatype Sent = Sent(chat: int, reply: Reply)

  /** The request about `solicitante`, carrying the data of its approve and reject buttons. */
  function Solicitud(solicitante: int, username: string): (r: Reply)
    ensures r.SolicitudAcceso? && r.solicitante == solicitante && r.username == username
    ensures StartsWith(r.aprobar, "auth_approve_") && StartsWith(r.rechazar, "auth_reject_")
  {
    SolicitudAcceso(solicitante, username, ApproveData(solicitante), RejectData(solicitante))
  }

  /** The callback data of the approve button of a request. */
  function ApproveData(id: int): (r: string)
    ensures StartsWith(r, "auth_approve_")
  {
    "auth_approve_" + IntToString(id)
  }

  /** The callback data of the reject button of a request. */
  function RejectData(id: int): (r: string)
    ensures StartsWith(r, "auth_reject_")
  {
    "auth_reject_" + IntToString(id)
  }

  /** An approve/reject button as the handler reads it. */
  datatype Decision = Approve(target: int) | Reject(target: int) | Neither(target: int)

  /**
   * `action, _, target_id = data.split('_')` and `int(target_id)`; `None` stands for the
   * exception either raises.  The decision is made on the first piece and on the prefix of the
   * whole data, as `handle_autorizacion` does.
   */
  function ParseAuthData(data: string): (r: Option<Decision>)
    ensures r.Some? ==> |Split(data, '_')| == 3 && ParseInt(Split(data, '_')[2]) == Some(r.value.target)
    ensures r.Some? <==> |Split(data, '_')| == 3 && ParseInt(Split(data, '_')[2]).Some?
    ensures r.Some? ==> (r.value.Approve? <==> Split(data, '_')[0] == "auth" && StartsWith(data, "auth_approve"))
    ensures r.Some? ==> (r.value.Reject? <==> Split(data, '_')[0] == "auth" && StartsWith(data, "auth_reject"))
  {
    PrefixesExclusive(data);
    var parts := Split(data, '_');
    if |parts| != 3 then None
    else
      match ParseInt(parts[2])
      case None => None
      case Some(id) =>
        if parts[0] == "auth" && StartsWith(data, "auth_approve") then Some(Approve(id))
        else if parts[0] == "auth" && StartsWith(data, "auth_reject") then Some(Reject(id))
        else Some(Neither(id))
  }

  /** `user.username or "N/A"`: a missing or empty name shows as `N/A`. */
  function RequesterName(username: Option<string>): (r: string)
    ensures r != ""
    ensures (username.None? || username.value == "") ==> r == "N/A"
    ensures username.Some? && username.value != "" ==> r == username.value
  {
    if username.Some? && username.value != "" then username.value else "N/A"
  }

  /** `target_user.username or f"ID: {target_id}"`, also used when `get_chat` fails (`None`). */
  function TargetName(id: int, username: Option<string>): (r: string)
    ensures r != ""
    ensures username.None? ==> r == "ID: " + IntToString(id)
    ensures username.Some? && username.value == "" ==> r == "ID: " + IntToString(id)
    ensures username.Some? && username.value != "" ==> r == username.value
  {
    if username.Some? && username.value != "" then username.value else "ID: " + IntToString(id)
  }

  /** The chats a sequence of messages went to. */
  function ChatsOf(s: seq<Sent>): (r: set<int>)
    ensures forall i :: 0 <= i < |s| ==> s[i].chat in r
  {
    set i | 0 <= i < |s| :: s[i].chat
  }

  lemma ChatsOfAppend(s: seq<Sent>, m: Sent)
    ensures ChatsOf(s + [m]) == ChatsOf(s) + {m.chat}
  {
    var t := s + [m];
    assert t[|s|] == m;
    forall c | c in ChatsOf(s) ensures c in ChatsOf(t) {
      var i :| 0 <= i < |s| && s[i].chat == c;
      assert t[i] == s[i];
    }
  }

  /** A set that is not empty has a member to pick. */
  lemma NonEmptyHasMember(s: set<int>)
    requires s != {}
    ensures exists x :: x in s
  {
    assert (forall x :: x !in s) ==> s == {};
  }

  /** One more administrator handled: the reachable ones handled so far grow by at most that one. */
  lemma DoneStep(all: set<int>, pending: set<int>, a: int, reachable: set<int>)
    requires pending <= all && a in pending
    ensures a !in (all - pending) * reachable
    ensures a in reachable ==> (all - (pending - {a})) * reachable == (all - pending) * reachable + {a}
    ensures a !in reachable ==> (all - (pending - {a})) * reachable == (all - pending) * reachable
  {
  }
  /** `sent` is `reply` once to each chat of `done`, and to nothing else. */
  ghost predicate Broadcasted(sent: seq<Sent>, reply: Reply, done: set<int>) {
    (forall k :: 0 <= k < |sent| ==> sent[k].reply == reply)
    && ChatsOf(sent) == done
    && (forall i, j :: 0 <= i < j < |sent| ==> sent[i].chat != sent[j].chat)
  }

  /**
   * One more administrator handled: a reachable one gets the reply, and the messages so far
   * still go once to each reachable administrator handled.
   */
  lemma BroadcastStep(sent: seq<Sent>, reply: Reply, all: set<int>, pending: set<int>, a: int, reachable: set<int>)
    requires pending <= all && a in pending
    requires Broadcasted(sent, reply, (all - pending) * reachable)
    ensures a in reachable ==> Broadcasted(sent + [Sent(a, reply)], reply, (all - (pending - {a})) * reachable)
    ensures a !in reachable ==> Broadcasted(sent, reply, (all - (pending - {a})) * reachable)
  {
    DoneStep(all, pending, a, reachable);
    if a in reachable {
      var m := Sent(a, reply);
      var t := sent + [m];
      ChatsOfAppend(sent, m);
      forall i, j | 0 <= i < j < |t| ensures t[i].chat != t[j].chat {
        if j == |sent| {
          assert t[i] == sent[i];
          assert sent[i].chat in ChatsOf(sent);
        }
      }
    }
  }

  // ---------------------------------------------------------------------
  // Properties of the button data

  /** Three separator-free pieces joined by the separator split back into those pieces. */
  lemma SplitThree(a: string, b: string, c: string)
    requires '_' !in a && '_' !in b && '_' !in c
    ensures Split(a + ['_'] + b + ['_'] + c, '_') == [a, b, c]
  {
    SplitNoSep(c, '_');
    SplitAppend(b, c, '_');
    SplitAppend(a, b + ['_'] + c, '_');
    assert a + ['_'] + b + ['_'] + c == a + ['_'] + (b + ['_'] + c);
  }

  /** A prefix test passes exactly when it passes on a long enough head. */
  lemma StartsWithAppend(p: string, q: string, s: string)
    requires |q| <= |p|
    ensures StartsWith(p + s, q) <==> StartsWith(p, q)
  {
    assert (p + s)[..|q|] == p[..|q|];
  }

  /** No text starts with both the approve and the reject prefix: they differ at index 5. */
  lemma PrefixesExclusive(data: string)
    ensures !(StartsWith(data, "auth_reject") && StartsWith(data, "auth_approve"))
  {
    if StartsWith(data, "auth_reject") && |data| >= 12 {
      assert data[..12][5] == data[..11][5] == 'r';
    }
  }

  /** The button prefixes, piece by piece. */
  lemma ButtonPrefixes()
    ensures "auth_approve_" == "auth" + ['_'] + "approve" + ['_']
    ensures "auth_reject_" == "auth" + ['_'] + "reject" + ['_']
    ensures "auth_approved_" == "auth" + ['_'] + "approved" + ['_']
    ensures '_' !in "auth" && '_' !in "approve" && '_' !in "reject" && '_' !in "approved"
    ensures StartsWith("auth_approve_", "auth_approve") && StartsWith("auth_approved_", "auth_approve")
    ensures StartsWith("auth_reject_", "auth_reject") && !StartsWith("auth_reject_", "auth_approve")
  {
    assert "auth_reject_"[5] != "auth_approve"[5];
  }

  /** Each approve button of a request reads back as approving that requester... */
  lemma ApproveRoundTrip(id: int)
    ensures ParseAuthData(ApproveData(id)) == Some(Approve(id))
  {
    var s := IntToString(id);
    ParseIntString(id);
    ButtonPrefixes();
    SplitThree("auth", "approve", s);
    assert ApproveData(id) == "auth" + ['_'] + "approve" + ['_'] + s;
    StartsWithAppend("auth_approve_", "auth_approve", s);
  }

  /** ...and each reject button as rejecting them: a reject button never grants. */
  lemma RejectRoundTrip(id: int)
    ensures ParseAuthData(RejectData(id)) == Some(Reject(id))
  {
    var s := IntToString(id);
    ParseIntString(id);
    ButtonPrefixes();
    SplitThree("auth", "reject", s);
    assert RejectData(id) == "auth" + ['_'] + "reject" + ['_'] + s;
    StartsWithAppend("auth_reject_", "auth_approve", s);
    StartsWithAppend("auth_reject_", "auth_reject", s);
  }

  /** Pressing either button of a request decides about the requester it names. */
  lemma SolicitudButtons(solicitante: int, username: string)
    ensures ParseAuthData(Solicitud(solicitante, username).aprobar) == Some(Approve(solicitante))
    ensures ParseAuthData(Solicitud(solicitante, username).rechazar) == Some(Reject(solicitante))
  {
    ApproveRoundTrip(solicitante);
    RejectRoundTrip(solicitante);
  }

  /** A button reads back as the requester it was made for, and approve and reject differ. */
  lemma ButtonsDistinct(a: int, b: int)
    ensures ApproveData(a) != RejectData(b)
    ensures ApproveData(a) == ApproveData(b) ==> a == b
    ensures RejectData(a) == RejectData(b) ==> a == b
  {
    ApproveRoundTrip(a);
    ApproveRoundTrip(b);
    RejectRoundTrip(a);
    RejectRoundTrip(b);
  }

  /** Data that does not split into exactly three `_`-separated pieces raises. */
  lemma WrongPieceCountRaises(data: string)
    requires |Split(data, '_')| != 3
    ensures ParseAuthData(data).None?
  {
  }

  /**
   * The approve test is a prefix test on the whole data, so a second piece that only starts with
   * `approve` still approves.
   */
  lemma LenientApprove(id: int)
    ensures ParseAuthData("auth_approved_" + IntToString(id)) == Some(Approve(id))
  {
    var s := IntToString(id);
    ParseIntString(id);
    ButtonPrefixes();
    SplitThree("auth", "approved", s);
    assert "auth_approved_" + s == "auth" + ['_'] + "approved" + ['_'] + s;
    StartsWithAppend("auth_approved_", "auth_approve", s);
  }

  // ---------------------------------------------------------------------
  // The handlers

  /** The running bot: the registry it consults and changes, and the messages it has sent. */
  class Bot {
    const registry: Config.Registry
    var outbox: seq<Sent>

    ghost predicate Valid()
      reads this, registry
    {
      registry.Valid()
    }

    constructor(registry: Config.Registry)
      requires registry.Valid()
      ensures Valid()
      ensures this.registry == registry && outbox == []
    {
      this.registry := registry;
      outbox := [];
    }

    /**
     * The loop of `enviar_solicitud_acceso`: `reply` once to every administrator that can be
     * reached, in no particular order; the others are skipped.
     */
    method SendToAdministrators(reply: Reply, reachable: set<int>)
      modifies this
      ensures |old(outbox)| <= |outbox| && outbox[..|old(outbox)|] == old(outbox)
      ensures forall k :: |old(outbox)| <= k < |outbox| ==> outbox[k].reply == reply
      ensures ChatsOf(outbox[|old(outbox)|..]) == registry.administradores * reachable
      ensures forall i, j :: |old(outbox)| <= i < j < |outbox| ==> outbox[i].chat != outbox[j].chat
    {
      var pending := registry.administradores;
      var added: seq<Sent> := [];
      while pending != {}
        invariant pending <= registry.administradores
        invariant outbox == old(outbox) + added
        invariant Broadcasted(added, reply, (registry.administradores - pending) * reachable)
        decreases |pending|
      {
        NonEmptyHasMember(pending);
        var adminId :| adminId in pending;
        BroadcastStep(added, reply, registry.administradores, pending, adminId, reachable);
        if adminId in reachable {
          added := added + [Sent(adminId, reply)];
          outbox := outbox + [Sent(adminId, reply)];
        }
        pending := pending - {adminId};
      }
      assert outbox[|old(outbox)|..] == added;
    }

    /**
     * `enviar_solicitud_acceso`: one request, with approve and reject buttons for the requester,
     * to every administrator that can be reached, in no particular order; failures are skipped.
     */
    method EnviarSolicitudAcceso(solicitanteId: int, username: string, reachable: set<int>)
      modifies this
      ensures |old(outbox)| <= |outbox| && outbox[..|old(outbox)|] == old(outbox)
      ensures forall k :: |old(outbox)| <= k < |outbox| ==> outbox[k].reply == Solicitud(solicitanteId, username)
      ensures ChatsOf(outbox[|old(outbox)|..]) == registry.administradores * reachable
      ensures forall i, j :: |old(outbox)| <= i < j < |outbox| ==> outbox[i].chat != outbox[j].chat
    {
      SendToAdministrators(Solicitud(solicitanteId, username), reachable);
    }

    /**
     * `start`: an authorized user gets the main menu; anyone else is told so and a request for
     * them goes to the administrators.  The registry is not changed.
     */
    method Start(userId: int, chat: int, username: Option<string>, reachable: set<int>)
      modifies this
      ensures registry.Autorizado(userId) ==> outbox == old(outbox) + [Sent(chat, MenuPrincipal)]
      ensures !registry.Autorizado(userId) ==>
                |outbox| > |old(outbox)| && outbox[..|old(outbox)| + 1] == old(outbox) + [Sent(chat, NoAutorizadoSolicitud)]
                && (forall k :: |old(outbox)| < k < |outbox| ==> outbox[k].reply == Solicitud(userId, RequesterName(username)))
                && ChatsOf(outbox[|old(outbox)| + 1..]) == registry.administradores * reachable
      ensures !registry.Autorizado(userId) ==> forall i, j :: |old(outbox)| < i < j < |outbox| ==> outbox[i].chat != outbox[j].chat
      ensures !registry.Autorizado(userId) ==> forall k :: |old(outbox)| <= k < |outbox| ==> outbox[k].reply != MenuPrincipal
    {
      if registry.Autorizado(userId) {
        outbox := outbox + [Sent(chat, MenuPrincipal)];
      } else {
        outbox := outbox + [Sent(chat, NoAutorizadoSolicitud)];
        var mid := outbox;
        EnviarSolicitudAcceso(userId, RequesterName(username), reachable);
        assert outbox[..|mid|] == mid;
        assert outbox[..|old(outbox)| + 1] == mid[..|old(outbox)| + 1];
      }
    }

    /** `menu`: the main menu for an authorized user, a refusal for anyone else. */
    method Menu(userId: int, chat: int)
      modifies this
      ensures outbox == old(outbox) + [Sent(chat, if registry.Autorizado(userId) then MenuPrincipal else NoAutorizado)]
    {
      if !registry.Autorizado(userId) {
        outbox := outbox + [Sent(chat, NoAutorizado)];
        return;
      }
      outbox := outbox + [Sent(chat, MenuPrincipal)];
    }

    /** `menu_callback`: an authorized user's button data is sent into the chat as a command. */
    method MenuCallback(userId: int, chat: int, data: string)
      modifies this
      ensures outbox == old(outbox) + [Sent(chat, if registry.Autorizado(userId) then Comando(data) else NoAutorizado)]
    {
      if !registry.Autorizado(userId) {
        outbox := outbox + [Sent(chat, NoAutorizado)];
        return;
      }
      outbox := outbox + [Sent(chat, Comando(data))];
    }

    /**
     * `handle_autorizacion`: only an administrator may approve or reject.  An approve grants the
     * target and a reject revokes them; either edits the request for the administrator and then
     * tries to notify the target.  Data that does not parse raises (`ok` is false) with nothing
     * changed; `targetUsername` is what `get_chat` finds.
     */
    method HandleAutorizacion(adminId: int, chat: int, data: string, targetUsername: Option<string>, reachable: set<int>)
      returns (ok: bool)
      requires Valid()
      modifies this, registry
      ensures Valid()
      ensures !registry.EsAdmin(adminId) ==>
                ok && outbox == old(outbox) + [Sent(chat, SoloAdministradores)] && registry.autorizados == old(registry.autorizados)
      ensures registry.EsAdmin(adminId) && ParseAuthData(data).None? ==>
                !ok && outbox == old(outbox) && registry.autorizados == old(registry.autorizados)
      ensures registry.EsAdmin(adminId) && ParseAuthData(data).Some? ==> ok
      ensures var p := ParseAuthData(data);
              registry.EsAdmin(adminId) && p.Some? && p.value.Approve? ==>
                registry.autorizados == Config.Grant(old(registry.autorizados), registry.administradores, p.value.target)
                && outbox == old(outbox) + [Sent(chat, Aprobado(TargetName(p.value.target, targetUsername)))]
                             + (if p.value.target in reachable then [Sent(p.value.target, AvisoAprobado)] else [])
      ensures var p := ParseAuthData(data);
              registry.EsAdmin(adminId) && p.Some? && p.value.Reject? ==>
                registry.autorizados == Config.Revoke(old(registry.autorizados), p.value.target)
                && outbox == old(outbox) + [Sent(chat, Rechazado(TargetName(p.value.target, targetUsername)))]
                             + (if p.value.target in reachable then [Sent(p.value.target, AvisoRechazado)] else [])
      ensures var p := ParseAuthData(data);
              registry.EsAdmin(adminId) && p.Some? && p.value.Neither? ==>
                registry.autorizados == old(registry.autorizados) && outbox == old(outbox)
    {
      if !registry.EsAdmin(adminId) {
        outbox := outbox + [Sent(chat, SoloAdministradores)];
        return true;
      }
      var parts := Split(data, '_');
      if |parts| != 3 {
        return false;
      }
      var parsed := ParseInt(parts[2]);
      if parsed.None? {
        return false;
      }
      var targetId := parsed.value;
      var who := TargetName(targetId, targetUsername);
      if parts[0] == "auth" && StartsWith(data, "auth_approve") {
        registry.AgregarUsuarioAutorizado(targetId);
        outbox := outbox + [Sent(chat, Aprobado(who))];
        if targetId in reachable {
          outbox := outbox + [Sent(targetId, AvisoAprobado)];
        }
      } else if parts[0] == "auth" && StartsWith(data, "auth_reject") {
        registry.RemoverUsuarioAutorizado(targetId);
        outbox := outbox + [Sent(chat, Rechazado(who))];
        if targetId in reachable {
          outbox := outbox + [Sent(targetId, AvisoRechazado)];
        }
      }
      return true;
    }
  }

  // ---------------------------------------------------------------------
  // The access workflow as a whole

  /**
   * Pressing the approve button of a request makes the requester authorized, and pressing the
   * reject button makes them unauthorized unless they are an administrator.
   */
  lemma RequestButtonsDecide(autorizados: set<int>, admins: set<int>, requester: int)
    ensures ParseAuthData(ApproveData(requester)) == Some(Approve(requester))
    ensures Config.Authorized(Config.Grant(autorizados, admins, requester), admins, requester)
    ensures ParseAuthData(RejectData(requester)) == Some(Reject(requester))
    ensures Config.Authorized(Config.Revoke(autorizados, requester), admins, requester) <==> requester in admins
  {
    ApproveRoundTrip(requester);
    RejectRoundTrip(requester);
    Config.GrantAuthorizes(autorizados, admins, requester);
    Config.RevokeDeauthorizes(autorizados, admins, requester);
  }
}
