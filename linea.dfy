/**
 * The production-line dialogue: access key, date, company, production type, the list of worker
 * IDs, boxes produced, then a confirmation that makes one `agregar_registro` call per listed worker.
 */
module Linea {
  import opened Wrappers
  import opened Text
  import opened Dates
  import opened Session
  import Config

  /** The conversation states, plus `Inactive` for a user with no dialogue in progress. */
  datatype State =
    | Inactive
    | EsperandoClave
    | EsperandoFecha
    | EsperandoEmpresa
    | EsperandoTipo
    | EsperandoIds
    | EsperandoCaja
    | Confirmar

  /** The integer the handler returns: `range(7)` in order, and `ConversationHandler.END` (-1). */
  function Code(s: State): (n: int)
    ensures -1 <= n < 7
    ensures n == -1 <==> s == Inactive
  {
    match s
    case Inactive => -1
    case EsperandoClave => 0
    case EsperandoFecha => 1
    case EsperandoEmpresa => 2
    case EsperandoTipo => 3
    case EsperandoIds => 4
    case EsperandoCaja => 5
    case Confirmar => 6
  }

  /** Distinct states have distinct codes. */
  lemma CodeInjective(s: State, t: State)
    requires Code(s) == Code(t)
    ensures s == t
  {
  }

  const AREA := "L\U{00ED}nea"
  const EDITAR := "editar_carga_linea"
  const CONFIRMAR_SI := "confirmar_si"

  /**
   * What the steps already taken guarantee: each state implies the fields of every earlier
   * step are present and valid.
   */
  predicate Inv(c: Conf<State>, userId: int) {
    var n, ud := Code(c.state), c.userData;
    (n >= 1 ==> HasResponsable(ud, userId))
    && (n >= 2 ==> HasFecha(ud))
    && (n >= 3 ==> HasStr(ud, EMPRESA))
    && (n >= 4 ==> HasStr(ud, TIPO))
    && (n >= 5 ==> HasIds(ud))
    && (n >= 6 ==> HasPosInt(ud, CANTIDAD))
  }

  /** The fields every write of a confirmed load shares; `trabajadorId` is set per worker. */
  function Template(ud: UserData): (r: Registro)
    requires HasFecha(ud) && HasStr(ud, EMPRESA) && HasStr(ud, TIPO) && HasInt(ud, CANTIDAD) && HasInt(ud, RESPONSABLE)
    ensures r.area == AREA && IsFullDate(r.fecha)
    ensures r.empresa == ud[EMPRESA].s && r.responsableId == ud[RESPONSABLE].i
    ensures r.trabajadorId == 0 && r.cantidad == ud[CANTIDAD].i as real
    ensures r.cantidadAuxiliar.None? && r.tipo == Some(ud[TIPO].s)
  {
    Registro(
      trabajadorId := 0,
      area := AREA,
      empresa := ud[EMPRESA].s,
      cantidad := ud[CANTIDAD].i as real,
      responsableId := ud[RESPONSABLE].i,
      cantidadAuxiliar := None,
      tipo := Some(ud[TIPO].s),
      fecha := ud[FECHA].s)
  }

  /** `recibir_clave`, given whether the key was accepted for the "linea" area; success records the acting user. */
  function OnClave(c: Conf<State>, userId: int, ok: bool): (r: Conf<State>)
    requires Inv(c, userId) && c.state == EsperandoClave
    ensures Inv(r, userId)
    ensures AdvancesOrStays(c, r, EsperandoFecha, RESPONSABLE)
  {
    if ok
    then c.(state := EsperandoFecha, userData := c.userData[RESPONSABLE := IntVal(userId)])
    else c
  }

  /** `recibir_fecha`, given the outcome of the date conversion (`None` for its `ValueError`). */
  function OnFecha(c: Conf<State>, userId: int, fecha: Option<string>): (r: Conf<State>)
    requires Inv(c, userId) && c.state == EsperandoFecha
    requires fecha.Some? ==> IsFullDate(fecha.value)
    ensures Inv(r, userId)
    ensures AdvancesOrStays(c, r, EsperandoEmpresa, FECHA)
  {
    match fecha
    case Some(f) => c.(state := EsperandoEmpresa, userData := c.userData[FECHA := StrVal(f)])
    case None => c
  }

  /** `recibir_empresa`: the callback data verbatim. */
  function OnEmpresa(c: Conf<State>, userId: int, d: string): (r: Conf<State>)
    requires Inv(c, userId) && c.state == EsperandoEmpresa
    ensures Inv(r, userId)
    ensures AdvancesOrStays(c, r, EsperandoTipo, EMPRESA)
  {
    c.(state := EsperandoTipo, userData := c.userData[EMPRESA := StrVal(d)])
  }

  /** `recibir_tipo`: the callback data verbatim. */
  function OnTipo(c: Conf<State>, userId: int, d: string): (r: Conf<State>)
    requires Inv(c, userId) && c.state == EsperandoTipo
    ensures Inv(r, userId)
    ensures AdvancesOrStays(c, r, EsperandoIds, TIPO)
  {
    c.(state := EsperandoIds, userData := c.userData[TIPO := StrVal(d)])
  }

  /** `recibir_ids`, given the IDs read from the text: an empty list is refused. */
  function OnIds(c: Conf<State>, userId: int, ids: seq<int>): (r: Conf<State>)
    requires Inv(c, userId) && c.state == EsperandoIds
    requires forall i :: 0 <= i < |ids| ==> ids[i] >= 0
    ensures Inv(r, userId)
    ensures AdvancesOrStays(c, r, EsperandoCaja, IDS)
  {
    if |ids| == 0 then c else c.(state := EsperandoCaja, userData := c.userData[IDS := IdsVal(ids)])
  }

  /** `recibir_caja`, given the outcome of `int(...)`: an integer above zero, stored as `cantidad`. */
  function OnCaja(c: Conf<State>, userId: int, cajas: Option<int>): (r: Conf<State>)
    requires Inv(c, userId) && c.state == EsperandoCaja
    ensures Inv(r, userId)
    ensures AdvancesOrStays(c, r, Confirmar, CANTIDAD)
  {
    match cajas
    case Some(n) => if n <= 0 then c else c.(state := Confirmar, userData := c.userData[CANTIDAD := IntVal(n)])
    case None => c
  }

  /** `confirmar`: edit, commit one write per listed worker, or cancel. */
  function OnConfirmar(c: Conf<State>, userId: int, d: string): (r: Conf<State>)
    requires Inv(c, userId) && c.state == Confirmar
    ensures Inv(r, userId)
  {
    if d == EDITAR then c.(state := EsperandoFecha)
    else if d == CONFIRMAR_SI
    then c.(state := Inactive, writes := c.writes + FanOut(Template(c.userData), c.userData[IDS].ids))
    else c.(state := Inactive)
  }

  /**
   * One update handled by the conversation (the transition table of `build_linea_handler`):
   * the entry command, the step handler of the current state, or nothing when no handler of
   * the state matches the update.
   */
  function Step(c: Conf<State>, userId: int, e: Event): (r: Conf<State>)
    requires Inv(c, userId)
    ensures Inv(r, userId)
  {
    match e
    case Command(name) =>
      if c.state == Inactive && name == "linea" then c.(state := EsperandoClave) else c
    case Text(t) =>
      (match c.state
       case EsperandoClave => OnClave(c, userId, Config.ValidarClave(Some("linea"), Strip(t)))
       case EsperandoFecha => OnFecha(c, userId, ParseFecha(t))
       case EsperandoIds => OnIds(c, userId, ParseIds(t))
       case EsperandoCaja => OnCaja(c, userId, ParseInt(Strip(t)))
       case _ => c)
    case Callback(d) =>
      (match c.state
       case EsperandoEmpresa => OnEmpresa(c, userId, d)
       case EsperandoTipo => OnTipo(c, userId, d)
       case Confirmar => OnConfirmar(c, userId, d)
       case _ => c)
  }

  /** The updates handled one after the other. */
  function Run(c: Conf<State>, userId: int, es: seq<Event>): (r: Conf<State>)
    requires Inv(c, userId)
    ensures Inv(r, userId)
    decreases |es|
  {
    if es == [] then c else Run(Step(c, userId, es[0]), userId, es[1..])
  }

  // ---------------------------------------------------------------------
  // Properties of the dialogue

  /**
   * Started with any `user_data`, the dialogue reaches the confirmation only with every field the
   * summary and the writes read present and valid, and at least one worker listed.
   */
  lemma ConfirmarHasAllFields(ud: UserData, userId: int, es: seq<Event>)
    requires Run(Conf(Inactive, ud, []), userId, es).state == Confirmar
    ensures var d := Run(Conf(Inactive, ud, []), userId, es).userData;
            HasFecha(d) && HasStr(d, EMPRESA) && HasStr(d, TIPO) && HasIds(d) && HasPosInt(d, CANTIDAD) && HasResponsable(d, userId)
  {
  }

  /** A failed step is a retry: when the state does not move, nothing else changes either. */
  lemma StayMeansUnchanged(c: Conf<State>, userId: int, e: Event)
    requires Inv(c, userId)
    ensures Step(c, userId, e).state == c.state ==> Step(c, userId, e) == c
  {
  }

  /** The state each collecting step moves to when its input is accepted. */
  function Next(s: State): State {
    match s
    case EsperandoClave => EsperandoFecha
    case EsperandoFecha => EsperandoEmpresa
    case EsperandoEmpresa => EsperandoTipo
    case EsperandoTipo => EsperandoIds
    case EsperandoIds => EsperandoCaja
    case EsperandoCaja => Confirmar
    case _ => s
  }

  /** The key each collecting step writes. */
  function KeyOf(s: State): string {
    match s
    case EsperandoClave => RESPONSABLE
    case EsperandoFecha => FECHA
    case EsperandoEmpresa => EMPRESA
    case EsperandoTipo => TIPO
    case EsperandoIds => IDS
    case EsperandoCaja => CANTIDAD
    case _ => ""
  }

  /** A collecting step either stays put or advances to the next state writing exactly its own key. */
  lemma StepWritesOneKey(c: Conf<State>, userId: int, e: Event)
    requires Inv(c, userId)
    requires c.state != Inactive && c.state != Confirmar
    ensures AdvancesOrStays(c, Step(c, userId, e), Next(c.state), KeyOf(c.state))
  {
  }

  /** No step removes a key of `user_data` or undoes a write. */
  lemma NothingForgotten(c: Conf<State>, userId: int, e: Event)
    requires Inv(c, userId)
    ensures c.userData.Keys <= Step(c, userId, e).userData.Keys
    ensures c.writes <= Step(c, userId, e).writes
  {
    if c.state != Inactive && c.state != Confirmar {
      StepWritesOneKey(c, userId, e);
    }
  }

  /** The key step accepts exactly `"123"` (after strip) and then records the acting user. */
  lemma ClaveStep(c: Conf<State>, userId: int, t: string)
    requires Inv(c, userId) && c.state == EsperandoClave
    ensures Step(c, userId, Text(t))
            == if Strip(t) == "123" then c.(state := EsperandoFecha, userData := c.userData[RESPONSABLE := IntVal(userId)])
               else c
  {
    Config.ValidarClaveExact("linea", Strip(t));
  }

  /** The date step accepts exactly the valid `DD/MM/YYYY` dates and stores them as full-dates. */
  lemma FechaStep(c: Conf<State>, userId: int, t: string)
    requires Inv(c, userId) && c.state == EsperandoFecha
    ensures Step(c, userId, Text(t))
            == match ParseDmy(Strip(t))
               case Some(d) => c.(state := EsperandoEmpresa, userData := c.userData[FECHA := StrVal(FormatIso(d))])
               case None => c
  {
    match ParseDmy(Strip(t))
    case Some(d) =>
      assert ParseFecha(t) == Some(FormatIso(d));
    case None =>
  }

  /** The company is stored exactly as the button sent it. */
  lemma EmpresaStep(c: Conf<State>, userId: int, d: string)
    requires Inv(c, userId) && c.state == EsperandoEmpresa
    ensures Step(c, userId, Callback(d)).userData == c.userData[EMPRESA := StrVal(d)]
    ensures Step(c, userId, Callback(d)).state == EsperandoTipo
  {
  }

  /** The production type is stored exactly as the button sent it. */
  lemma TipoStep(c: Conf<State>, userId: int, d: string)
    requires Inv(c, userId) && c.state == EsperandoTipo
    ensures Step(c, userId, Callback(d)).userData == c.userData[TIPO := StrVal(d)]
    ensures Step(c, userId, Callback(d)).state == EsperandoIds
  {
  }

  /**
   * The ID step keeps exactly the numeral tokens, in order; a text without any is refused and
   * leaves `ids` as it was.
   */
  lemma IdsStep(c: Conf<State>, userId: int, t: string)
    requires Inv(c, userId) && c.state == EsperandoIds
    ensures var r := Step(c, userId, Text(t));
            (ParseIds(t) == [] ==> r == c)
            && (ParseIds(t) != [] ==> r.state == EsperandoCaja && r.userData == c.userData[IDS := IdsVal(ParseIds(t))])
  {
  }

  /** The box count is accepted exactly as an integer above zero and stored as `cantidad`. */
  lemma CajaStep(c: Conf<State>, userId: int, t: string)
    requires Inv(c, userId) && c.state == EsperandoCaja
    ensures var r := Step(c, userId, Text(t));
            (r != c <==> ParseInt(t).Some? && ParseInt(t).value > 0)
            && (r != c ==> r.state == Confirmar && r.userData == c.userData[CANTIDAD := IntVal(ParseInt(t).value)])
  {
    ParseIntStrip(t);
    var p := ParseInt(Strip(t));
    var r := Step(c, userId, Text(t));
    assert r == OnCaja(c, userId, p);
    if p.Some? && p.value > 0 {
      assert r.state == Confirmar;
    } else {
      assert r == c;
    }
  }

  /**
   * The confirmation: "confirmar_si" makes one write per listed worker, in list order, each with
   * that worker's ID and the shared fields, and ends; the edit button goes back to the date with
   * every field kept; anything else ends without a write.
   */
  lemma ConfirmarStep(c: Conf<State>, userId: int, d: string)
    requires Inv(c, userId) && c.state == Confirmar
    ensures var r, ud := Step(c, userId, Callback(d)), c.userData;
            r.userData == ud
            && (d == EDITAR ==> r.state == EsperandoFecha && r.writes == c.writes)
            && (d != EDITAR ==> r.state == Inactive)
            && (d == CONFIRMAR_SI ==>
                  |r.writes| == |c.writes| + |ud[IDS].ids| && r.writes[..|c.writes|] == c.writes
                  && forall i :: 0 <= i < |ud[IDS].ids| ==>
                       r.writes[|c.writes| + i]
                       == Registro(ud[IDS].ids[i], AREA, ud[EMPRESA].s, ud[CANTIDAD].i as real, userId, None, Some(ud[TIPO].s), ud[FECHA].s))
            && (d != CONFIRMAR_SI ==> r.writes == c.writes)
  {
    if d == CONFIRMAR_SI && d != EDITAR {
      var r := Step(c, userId, Callback(d));
      var ids := c.userData[IDS].ids;
      var added := FanOut(Template(c.userData), ids);
      assert r.writes == c.writes + added;
      forall i | 0 <= i < |ids|
        ensures r.writes[|c.writes| + i] == Template(c.userData).(trabajadorId := ids[i])
      {
        assert r.writes[|c.writes| + i] == added[i];
      }
    }
  }

  /** A command in the middle of the dialogue is not handled: nothing changes. */
  lemma CommandWhileActive(c: Conf<State>, userId: int, name: string)
    requires Inv(c, userId) && c.state != Inactive
    ensures Step(c, userId, Command(name)) == c
  {
  }

  // ---------------------------------------------------------------------
  // The handlers, changing the conversation in place

  /** One user's conversation: its state, `context.user_data` and the calls to `agregar_registro`. */
  class Dialogue {
    const userId: int
    var state: State
    var userData: UserData
    var writes: seq<Registro>

    function Snap(): Conf<State>
      reads this
    {
      Conf(state, userData, writes)
    }

    ghost predicate Valid()
      reads this
    {
      Inv(Snap(), userId)
    }

    /** No dialogue in progress; `user_data` may hold anything left by earlier dialogues. */
    constructor(userId: int, userData: UserData)
      ensures Valid() && this.userId == userId
      ensures Snap() == Conf(Inactive, userData, [])
    {
      this.userId := userId;
      this.state := Inactive;
      this.userData := userData;
      this.writes := [];
    }

    /** `menu_linea`: the `/linea` entry point. */
    method MenuLinea()
      requires Valid() && state == Inactive
      modifies this
      ensures Valid() && Snap() == Step(old(Snap()), userId, Command("linea"))
    {
      state := EsperandoClave;
    }

    /** `recibir_clave`. */
    method RecibirClave(text: string)
      requires Valid() && state == EsperandoClave
      modifies this
      ensures Valid() && Snap() == OnClave(old(Snap()), userId, Config.ValidarClave(Some("linea"), Strip(text)))
    {
      if !Config.ValidarClave(Some("linea"), Strip(text)) {
        return;
      }
      userData := userData[RESPONSABLE := IntVal(userId)];
      state := EsperandoFecha;
      assert Snap() == OnClave(old(Snap()), userId, true);
    }

    /** `recibir_fecha`. */
    method RecibirFecha(text: string)
      requires Valid() && state == EsperandoFecha
      modifies this
      ensures Valid() && Snap() == OnFecha(old(Snap()), userId, ParseFecha(text))
    {
      var fecha := ParseFecha(text);
      if fecha.None? {
        return;
      }
      userData := userData[FECHA := StrVal(fecha.value)];
      state := EsperandoEmpresa;
      assert Snap() == OnFecha(old(Snap()), userId, fecha);
    }

    /** `recibir_empresa`. */
    method RecibirEmpresa(data: string)
      requires Valid() && state == EsperandoEmpresa
      modifies this
      ensures Valid() && Snap() == OnEmpresa(old(Snap()), userId, data)
    {
      userData := userData[EMPRESA := StrVal(data)];
      state := EsperandoTipo;
      assert Snap() == OnEmpresa(old(Snap()), userId, data);
    }

    /** `recibir_tipo`. */
    method RecibirTipo(data: string)
      requires Valid() && state == EsperandoTipo
      modifies this
      ensures Valid() && Snap() == OnTipo(old(Snap()), userId, data)
    {
      userData := userData[TIPO := StrVal(data)];
      state := EsperandoIds;
      assert Snap() == OnTipo(old(Snap()), userId, data);
    }

    /** `recibir_ids`. */
    method RecibirIds(text: string)
      requires Valid() && state == EsperandoIds
      modifies this
      ensures Valid() && Snap() == OnIds(old(Snap()), userId, ParseIds(text))
    {
      var ids := ParseIds(text);
      if |ids| == 0 {
        return;
      }
      userData := userData[IDS := IdsVal(ids)];
      state := EsperandoCaja;
      assert Snap() == OnIds(old(Snap()), userId, ids);
    }

    /** `recibir_caja`, given the outcome of `int(update.message.text.strip())`, which `Handle` computes. */
    method RecibirCaja(cajas: Option<int>)
      requires Valid() && state == EsperandoCaja
      modifies this
      ensures Valid() && Snap() == OnCaja(old(Snap()), userId, cajas)
    {
      if cajas.None? || cajas.value <= 0 {
        assert Snap() == OnCaja(old(Snap()), userId, cajas);
        return;
      }
      userData := userData[CANTIDAD := IntVal(cajas.value)];
      state := State.Confirmar;
      assert Snap() == OnCaja(old(Snap()), userId, cajas);
    }

    /** `confirmar`: on "confirmar_si", one `agregar_registro` per element of `ids`, in order. */
    method Confirmar(data: string)
      requires Valid() && state == State.Confirmar
      modifies this
      ensures Valid() && Snap() == OnConfirmar(old(Snap()), userId, data)
    {
      if data == EDITAR {
        state := EsperandoFecha;
        assert Snap() == OnConfirmar(old(Snap()), userId, data);
        return;
      }
      if data == CONFIRMAR_SI {
        var d := userData;
        var ids := d[IDS].ids;
        for i := 0 to |ids|
          invariant state == old(state) && userData == d
          invariant writes == old(writes) + FanOut(Template(d), ids[..i])
        {
          writes := writes + [Registro(
            trabajadorId := ids[i],
            area := AREA,
            empresa := d[EMPRESA].s,
            cantidad := d[CANTIDAD].i as real,
            responsableId := d[RESPONSABLE].i,
            cantidadAuxiliar := None,
            tipo := Some(d[TIPO].s),
            fecha := d[FECHA].s)];
          assert ids[..i + 1][..i] == ids[..i];
        }
        assert ids[..|ids|] == ids;
      }
      state := Inactive;
      assert Snap() == OnConfirmar(old(Snap()), userId, data);
    }

    /** The transition table of `build_linea_handler`: route the update to the handler of the state. */
    method Handle(e: Event)
      requires Valid()
      modifies this
      ensures Valid() && Snap() == Step(old(Snap()), userId, e)
    {
      match e {
        case Command(name) =>
          if state == Inactive && name == "linea" {
            MenuLinea();
          }
        case Text(t) =>
          match state {
            case EsperandoClave => RecibirClave(t);
            case EsperandoFecha => RecibirFecha(t);
            case EsperandoIds => RecibirIds(t);
            case EsperandoCaja => RecibirCaja(ParseInt(Strip(t)));
            case _ =>
          }
        case Callback(d) =>
          match state {
            case EsperandoEmpresa => RecibirEmpresa(d);
            case EsperandoTipo => RecibirTipo(d);
            case Confirmar => this.Confirmar(d);
            case _ =>
          }
      }
    }
  }
}
