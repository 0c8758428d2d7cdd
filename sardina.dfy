/**
 * The sardine-reception dialogue: access key, date, buying company, supplier, baskets,
 * kilograms, receiving worker, then a confirmation that makes one `agregar_registro` call.
 */
module Sardina {
  import opened Wrappers
  import opened Text
  import opened Dates
  import opened Session
  import Config

  /** The conversation states, plus `Inactive` for a user with no dialogue in progress. */
  datatype State =
    | Inactive
    | EsperandoClave
    | EsperandoFecha
    | EsperandoEmpresa
    | EsperandoProveedor
    | EsperandoCestas
    | EsperandoKg
    | EsperandoIdTrabajador
    | Confirmar

  /** The integer the handler returns: `range(8)` in order, and `ConversationHandler.END` (-1). */
  function Code(s: State): (n: int)
    ensures -1 <= n < 8
    ensures n == -1 <==> s == Inactive
  {
    match s
    case Inactive => -1
    case EsperandoClave => 0
    case EsperandoFecha => 1
    case EsperandoEmpresa => 2
    case EsperandoProveedor => 3
    case EsperandoCestas => 4
    case EsperandoKg => 5
    case EsperandoIdTrabajador => 6
    case Confirmar => 7
  }

  /** Distinct states have distinct codes. */
  lemma CodeInjective(s: State, t: State)
    requires Code(s) == Code(t)
    ensures s == t
  {
  }

  const AREA := "Sardina"
  const EDITAR := "editar_carga_sardina"
  const CONFIRMAR_SI := "confirmar_si"

  /**
   * What the steps already taken guarantee: each state implies the fields of every earlier
   * step are present and valid.
   */
  predicate Inv(c: Conf<State>, userId: int) {
    var n, ud := Code(c.state), c.userData;
    (n >= 1 ==> HasResponsable(ud, userId))
    && (n >= 2 ==> HasFecha(ud))
    && (n >= 3 ==> HasStr(ud, EMPRESA))
    && (n >= 4 ==> HasStrippedText(ud, PROVEEDOR))
    && (n >= 5 ==> HasPosInt(ud, CESTAS))
    && (n >= 6 ==> HasPosReal(ud, KG))
    && (n >= 7 ==> HasPosInt(ud, TRABAJADOR_ID))
  }

  /** The one `agregar_registro` call of a confirmed sardine reception. */
  function Commit(ud: UserData): (r: Registro)
    requires HasFecha(ud) && HasStr(ud, EMPRESA) && HasStr(ud, PROVEEDOR)
    requires HasInt(ud, CESTAS) && KG in ud && ud[KG].RealVal? && HasInt(ud, TRABAJADOR_ID) && HasInt(ud, RESPONSABLE)
    ensures r.area == AREA && IsFullDate(r.fecha)
    ensures r.empresa == ud[EMPRESA].s && r.responsableId == ud[RESPONSABLE].i
    ensures r.trabajadorId == ud[TRABAJADOR_ID].i && r.cantidad == ud[KG].x
    ensures r.cantidadAuxiliar == Some(ud[CESTAS].i) && r.tipo == Some(ud[PROVEEDOR].s)
  {
    Registro(
      trabajadorId := ud[TRABAJADOR_ID].i,
      area := AREA,
      empresa := ud[EMPRESA].s,
      cantidad := ud[KG].x,
      responsableId := ud[RESPONSABLE].i,
      cantidadAuxiliar := Some(ud[CESTAS].i),
      tipo := Some(ud[PROVEEDOR].s),
      fecha := ud[FECHA].s)
  }

  /** `recibir_clave`, given whether the key was accepted for the "sardina" area; success records the acting user. */
  function OnClave(c: Conf<State>, userId: int, ok: bool): (r: Conf<State>)
    requires Inv(c, userId) && c.state == EsperandoClave
    ensures Inv(r, userId)
    ensures AdvancesOrStays(c, r, EsperandoFecha, RESPONSABLE)
  {
    if ok
    then c.(state := EsperandoFecha, userData := c.userData[RESPONSABLE := IntVal(userId)])
    else c
  }

  /** `recibir_fecha`, given the outcome of the date conversion (`None` for its `ValueError`). */
  function OnFecha(c: Conf<State>, userId: int, fecha: Option<string>): (r: Conf<State>)
    requires Inv(c, userId) && c.state == EsperandoFecha
    requires fecha.Some? ==> IsFullDate(fecha.value)
    ensures Inv(r, userId)
    ensures AdvancesOrStays(c, r, EsperandoEmpresa, FECHA)
  {
    match fecha
    case Some(f) => c.(state := EsperandoEmpresa, userData := c.userData[FECHA := StrVal(f)])
    case None => c
  }

  /** `recibir_empresa`: the callback data verbatim. */
  function OnEmpresa(c: Conf<State>, userId: int, d: string): (r: Conf<State>)
    requires Inv(c, userId) && c.state == EsperandoEmpresa
    ensures Inv(r, userId)
    ensures AdvancesOrStays(c, r, EsperandoProveedor, EMPRESA)
  {
    c.(state := EsperandoProveedor, userData := c.userData[EMPRESA := StrVal(d)])
  }

  /** `recibir_proveedor`, given the stripped text: anything that is not blank. */
  function OnProveedor(c: Conf<State>, userId: int, p: string): (r: Conf<State>)
    requires Inv(c, userId) && c.state == EsperandoProveedor
    requires Stripped(p)
    ensures Inv(r, userId)
    ensures AdvancesOrStays(c, r, EsperandoCestas, PROVEEDOR)
  {
    if |p| == 0 then c else c.(state := EsperandoCestas, userData := c.userData[PROVEEDOR := StrVal(p)])
  }

  /** `recibir_cestas`, given the outcome of `int(...)`: an integer above zero. */
  function OnCestas(c: Conf<State>, userId: int, cestas: Option<int>): (r: Conf<State>)
    requires Inv(c, userId) && c.state == EsperandoCestas
    ensures Inv(r, userId)
    ensures AdvancesOrStays(c, r, EsperandoKg, CESTAS)
  {
    match cestas
    case Some(n) => if n <= 0 then c else c.(state := EsperandoKg, userData := c.userData[CESTAS := IntVal(n)])
    case None => c
  }

  /** `recibir_kg`, given the outcome of `float(...)`: a number above zero. */
  function OnKg(c: Conf<State>, userId: int, kg: Option<real>): (r: Conf<State>)
    requires Inv(c, userId) && c.state == EsperandoKg
    ensures Inv(r, userId)
    ensures AdvancesOrStays(c, r, EsperandoIdTrabajador, KG)
  {
    match kg
    case Some(x) => if x <= 0.0 then c else c.(state := EsperandoIdTrabajador, userData := c.userData[KG := RealVal(x)])
    case None => c
  }

  /** `recibir_id_trabajador`, given the outcome of `int(...)`: an integer above zero. */
  function OnIdTrabajador(c: Conf<State>, userId: int, trabajadorId: Option<int>): (r: Conf<State>)
    requires Inv(c, userId) && c.state == EsperandoIdTrabajador
    ensures Inv(r, userId)
    ensures AdvancesOrStays(c, r, Confirmar, TRABAJADOR_ID)
  {
    match trabajadorId
    case Some(n) => if n <= 0 then c else c.(state := Confirmar, userData := c.userData[TRABAJADOR_ID := IntVal(n)])
    case None => c
  }

  /** `confirmar`: edit, commit or cancel. */
  function OnConfirmar(c: Conf<State>, userId: int, d: string): (r: Conf<State>)
    requires Inv(c, userId) && c.state == Confirmar
    ensures Inv(r, userId)
  {
    if d == EDITAR then c.(state := EsperandoFecha)
    else if d == CONFIRMAR_SI then c.(state := Inactive, writes := c.writes + [Commit(c.userData)])
    else c.(state := Inactive)
  }

  /**
   * One update handled by the conversation (the transition table of `build_sardina_handler`):
   * the entry command, the step handler of the current state, or nothing when no handler of
   * the state matches the update.
   */
  function Step(c: Conf<State>, userId: int, e: Event): (r: Conf<State>)
    requires Inv(c, userId)
    ensures Inv(r, userId)
  {
    match e
    case Command(name) =>
      if c.state == Inactive && name == "sardina" then c.(state := EsperandoClave) else c
    case Text(t) =>
      (match c.state
       case EsperandoClave => OnClave(c, userId, Config.ValidarClave(Some("sardina"), Strip(t)))
       case EsperandoFecha => OnFecha(c, userId, ParseFecha(t))
       case EsperandoProveedor => OnProveedor(c, userId, Strip(t))
       case EsperandoCestas => OnCestas(c, userId, ParseInt(Strip(t)))
       case EsperandoKg => OnKg(c, userId, ParseFloat(Strip(t)))
       case EsperandoIdTrabajador => OnIdTrabajador(c, userId, ParseInt(Strip(t)))
       case _ => c)
    case Callback(d) =>
      (match c.state
       case EsperandoEmpresa => OnEmpresa(c, userId, d)
       case Confirmar => OnConfirmar(c, userId, d)
       case _ => c)
  }

  /** The updates handled one after the other. */
  function Run(c: Conf<State>, userId: int, es: seq<Event>): (r: Conf<State>)
    requires Inv(c, userId)
    ensures Inv(r, userId)
    decreases |es|
  {
    if es == [] then c else Run(Step(c, userId, es[0]), userId, es[1..])
  }

  // ---------------------------------------------------------------------
  // Properties of the dialogue

  /**
   * Started with any `user_data`, the dialogue reaches the confirmation only with every field the
   * summary and the write read present and valid.
   */
  lemma ConfirmarHasAllFields(ud: UserData, userId: int, es: seq<Event>)
    requires Run(Conf(Inactive, ud, []), userId, es).state == Confirmar
    ensures var d := Run(Conf(Inactive, ud, []), userId, es).userData;
            HasFecha(d) && HasStr(d, EMPRESA) && HasStrippedText(d, PROVEEDOR) && HasPosInt(d, CESTAS)
            && HasPosReal(d, KG) && HasPosInt(d, TRABAJADOR_ID) && HasResponsable(d, userId)
  {
  }

  /** A failed step is a retry: when the state does not move, nothing else changes either. */
  lemma StayMeansUnchanged(c: Conf<State>, userId: int, e: Event)
    requires Inv(c, userId)
    ensures Step(c, userId, e).state == c.state ==> Step(c, userId, e) == c
  {
  }

  /** The state each collecting step moves to when its input is accepted. */
  function Next(s: State): State {
    match s
    case EsperandoClave => EsperandoFecha
    case EsperandoFecha => EsperandoEmpresa
    case EsperandoEmpresa => EsperandoProveedor
    case EsperandoProveedor => EsperandoCestas
    case EsperandoCestas => EsperandoKg
    case EsperandoKg => EsperandoIdTrabajador
    case EsperandoIdTrabajador => Confirmar
    case _ => s
  }

  /** The key each collecting step writes. */
  function KeyOf(s: State): string {
    match s
    case EsperandoClave => RESPONSABLE
    case EsperandoFecha => FECHA
    case EsperandoEmpresa => EMPRESA
    case EsperandoProveedor => PROVEEDOR
    case EsperandoCestas => CESTAS
    case EsperandoKg => KG
    case EsperandoIdTrabajador => TRABAJADOR_ID
    case _ => ""
  }

  /** A collecting step either stays put or advances to the next state writing exactly its own key. */
  lemma StepWritesOneKey(c: Conf<State>, userId: int, e: Event)
    requires Inv(c, userId)
    requires c.state != Inactive && c.state != Confirmar
    ensures AdvancesOrStays(c, Step(c, userId, e), Next(c.state), KeyOf(c.state))
  {
  }

  /** No step removes a key of `user_data` or undoes a write. */
  lemma NothingForgotten(c: Conf<State>, userId: int, e: Event)
    requires Inv(c, userId)
    ensures c.userData.Keys <= Step(c, userId, e).userData.Keys
    ensures c.writes <= Step(c, userId, e).writes
  {
    if c.state != Inactive && c.state != Confirmar {
      StepWritesOneKey(c, userId, e);
    }
  }

  /** The key step accepts exactly `"123"` (after strip) and then records the acting user. */
  lemma ClaveStep(c: Conf<State>, userId: int, t: string)
    requires Inv(c, userId) && c.state == EsperandoClave
    ensures Step(c, userId, Text(t))
            == if Strip(t) == "123" then c.(state := EsperandoFecha, userData := c.userData[RESPONSABLE := IntVal(userId)])
               else c
  {
    Config.ValidarClaveExact("sardina", Strip(t));
  }

  /** The date step accepts exactly the valid `DD/MM/YYYY` dates and stores them as full-dates. */
  lemma FechaStep(c: Conf<State>, userId: int, t: string)
    requires Inv(c, userId) && c.state == EsperandoFecha
    ensures Step(c, userId, Text(t))
            == match ParseDmy(Strip(t))
               case Some(d) => c.(state := EsperandoEmpresa, userData := c.userData[FECHA := StrVal(FormatIso(d))])
               case None => c
  {
    match ParseDmy(Strip(t))
    case Some(d) =>
      assert ParseFecha(t) == Some(FormatIso(d));
    case None =>
  }

  /** The company is stored exactly as the button sent it. */
  lemma EmpresaStep(c: Conf<State>, userId: int, d: string)
    requires Inv(c, userId) && c.state == EsperandoEmpresa
    ensures Step(c, userId, Callback(d)).userData == c.userData[EMPRESA := StrVal(d)]
    ensures Step(c, userId, Callback(d)).state == EsperandoProveedor
  {
  }

  /** The supplier is accepted exactly when something remains after strip, and stored stripped. */
  lemma ProveedorStep(c: Conf<State>, userId: int, t: string)
    requires Inv(c, userId) && c.state == EsperandoProveedor
    ensures Step(c, userId, Text(t)).state == EsperandoCestas <==> Strip(t) != []
    ensures Strip(t) != [] ==> Step(c, userId, Text(t)).userData == c.userData[PROVEEDOR := StrVal(Strip(t))]
  {
  }

  /** Baskets and the worker ID are accepted exactly as integers above zero. */
  lemma IntegerSteps(c: Conf<State>, userId: int, t: string)
    requires Inv(c, userId) && (c.state == EsperandoCestas || c.state == EsperandoIdTrabajador)
    ensures var r := Step(c, userId, Text(t));
            (r != c <==> ParseInt(t).Some? && ParseInt(t).value > 0)
            && (r != c ==> r.userData == c.userData[KeyOf(c.state) := IntVal(ParseInt(t).value)])
  {
    ParseIntStrip(t);
    var p := ParseInt(Strip(t));
    var r := Step(c, userId, Text(t));
    if c.state == EsperandoCestas {
      assert r == OnCestas(c, userId, p);
    } else {
      assert r == OnIdTrabajador(c, userId, p);
    }
    if p.Some? && p.value > 0 {
      assert r.state != c.state;
    } else {
      assert r == c;
    }
  }

  /** Kilograms are accepted exactly as numbers above zero, decimals included. */
  lemma KgStep(c: Conf<State>, userId: int, t: string)
    requires Inv(c, userId) && c.state == EsperandoKg
    ensures var r := Step(c, userId, Text(t));
            (r != c <==> ParseFloat(t).Some? && ParseFloat(t).value > 0.0)
            && (r != c ==> r.userData == c.userData[KG := RealVal(ParseFloat(t).value)])
  {
    ParseFloatStrip(t);
    var p := ParseFloat(Strip(t));
    var r := Step(c, userId, Text(t));
    assert r == OnKg(c, userId, p);
    if p.Some? && p.value > 0.0 {
      assert r.state == EsperandoIdTrabajador;
    } else {
      assert r == c;
    }
  }

  /**
   * The confirmation: "confirmar_si" makes exactly one write carrying the collected fields and ends;
   * the edit button goes back to the date with every field kept; anything else ends without a write.
   */
  lemma ConfirmarStep(c: Conf<State>, userId: int, d: string)
    requires Inv(c, userId) && c.state == Confirmar
    ensures var r, ud := Step(c, userId, Callback(d)), c.userData;
            r.userData == ud
            && (d == EDITAR ==> r.state == EsperandoFecha && r.writes == c.writes)
            && (d != EDITAR ==> r.state == Inactive)
            && (d == CONFIRMAR_SI ==>
                  |r.writes| == |c.writes| + 1 && r.writes[..|c.writes|] == c.writes
                  && var w := r.writes[|c.writes|];
                     w.area == "Sardina" && w.fecha == ud[FECHA].s && w.empresa == ud[EMPRESA].s
                     && w.cantidad == ud[KG].x && w.cantidadAuxiliar == Some(ud[CESTAS].i)
                     && w.tipo == Some(ud[PROVEEDOR].s) && w.trabajadorId == ud[TRABAJADOR_ID].i
                     && w.responsableId == userId)
            && (d != CONFIRMAR_SI ==> r.writes == c.writes)
  {
  }

  /** A command in the middle of the dialogue is not handled: nothing changes. */
  lemma CommandWhileActive(c: Conf<State>, userId: int, name: string)
    requires Inv(c, userId) && c.state != Inactive
    ensures Step(c, userId, Command(name)) == c
  {
  }

  // ---------------------------------------------------------------------
  // The handlers, changing the conversation in place

  /** One user's conversation: its state, `context.user_data` and the calls to `agregar_registro`. */
  class Dialogue {
    const userId: int
    var state: State
    var userData: UserData
    var writes: seq<Registro>

    function Snap(): Conf<State>
      reads this
    {
      Conf(state, userData, writes)
    }

    ghost predicate Valid()
      reads this
    {
      Inv(Snap(), userId)
    }

    /** No dialogue in progress; `user_data` may hold anything left by earlier dialogues. */
    constructor(userId: int, userData: UserData)
      ensures Valid() && this.userId == userId
      ensures Snap() == Conf(Inactive, userData, [])
    {
      this.userId := userId;
      this.state := Inactive;
      this.userData := userData;
      this.writes := [];
    }

    /** `menu_sardina`: the `/sardina` entry point. */
    method MenuSardina()
      requires Valid() && state == Inactive
      modifies this
      ensures Valid() && Snap() == Step(old(Snap()), userId, Command("sardina"))
    {
      state := EsperandoClave;
    }

    /** `recibir_clave`. */
    method RecibirClave(text: string)
      requires Valid() && state == EsperandoClave
      modifies this
      ensures Valid() && Snap() == OnClave(old(Snap()), userId, Config.ValidarClave(Some("sardina"), Strip(text)))
    {
      if !Config.ValidarClave(Some("sardina"), Strip(text)) {
        return;
      }
      userData := userData[RESPONSABLE := IntVal(userId)];
      state := EsperandoFecha;
      assert Snap() == OnClave(old(Snap()), userId, true);
    }

    /** `recibir_fecha`. */
    method RecibirFecha(text: string)
      requires Valid() && state == EsperandoFecha
      modifies this
      ensures Valid() && Snap() == OnFecha(old(Snap()), userId, ParseFecha(text))
    {
      var fecha := ParseFecha(text);
      if fecha.None? {
        return;
      }
      userData := userData[FECHA := StrVal(fecha.value)];
      state := EsperandoEmpresa;
      assert Snap() == OnFecha(old(Snap()), userId, fecha);
    }

    /** `recibir_empresa`. */
    method RecibirEmpresa(data: string)
      requires Valid() && state == EsperandoEmpresa
      modifies this
      ensures Valid() && Snap() == OnEmpresa(old(Snap()), userId, data)
    {
      userData := userData[EMPRESA := StrVal(data)];
      state := EsperandoProveedor;
      assert Snap() == OnEmpresa(old(Snap()), userId, data);
    }

    /** `recibir_proveedor`. */
    method RecibirProveedor(text: string)
      requires Valid() && state == EsperandoProveedor
      modifies this
      ensures Valid() && Snap() == OnProveedor(old(Snap()), userId, Strip(text))
    {
      var proveedor := Strip(text);
      if |proveedor| == 0 {
        return;
      }
      userData := userData[PROVEEDOR := StrVal(proveedor)];
      state := EsperandoCestas;
      assert Snap() == OnProveedor(old(Snap()), userId, proveedor);
    }

    /** `recibir_cestas`, given the outcome of `int(update.message.text.strip())`, which `Handle` computes. */
    method RecibirCestas(cestas: Option<int>)
      requires Valid() && state == EsperandoCestas
      modifies this
      ensures Valid() && Snap() == OnCestas(old(Snap()), userId, cestas)
    {
      if cestas.None? || cestas.value <= 0 {
        assert Snap() == OnCestas(old(Snap()), userId, cestas);
        return;
      }
      userData := userData[CESTAS := IntVal(cestas.value)];
      state := EsperandoKg;
      assert Snap() == OnCestas(old(Snap()), userId, cestas);
    }

    /** `recibir_kg`, given the outcome of `float(update.message.text.strip())`, which `Handle` computes. */
    method RecibirKg(kg: Option<real>)
      requires Valid() && state == EsperandoKg
      modifies this
      ensures Valid() && Snap() == OnKg(old(Snap()), userId, kg)
    {
      if kg.None? || kg.value <= 0.0 {
        assert Snap() == OnKg(old(Snap()), userId, kg);
        return;
      }
      userData := userData[KG := RealVal(kg.value)];
      state := EsperandoIdTrabajador;
      assert Snap() == OnKg(old(Snap()), userId, kg);
    }

    /** `recibir_id_trabajador`, given the outcome of `int(update.message.text.strip())`, which `Handle` computes. */
    method RecibirIdTrabajador(trabajadorId: Option<int>)
      requires Valid() && state == EsperandoIdTrabajador
      modifies this
      ensures Valid() && Snap() == OnIdTrabajador(old(Snap()), userId, trabajadorId)
    {
      if trabajadorId.None? || trabajadorId.value <= 0 {
        assert Snap() == OnIdTrabajador(old(Snap()), userId, trabajadorId);
        return;
      }
      userData := userData[TRABAJADOR_ID := IntVal(trabajadorId.value)];
      state := State.Confirmar;
      assert Snap() == OnIdTrabajador(old(Snap()), userId, trabajadorId);
    }

    /** `confirmar`. */
    method Confirmar(data: string)
      requires Valid() && state == State.Confirmar
      modifies this
      ensures Valid() && Snap() == OnConfirmar(old(Snap()), userId, data)
    {
      if data == EDITAR {
        state := EsperandoFecha;
        return;
      }
      if data == CONFIRMAR_SI {
        writes := writes + [Commit(userData)];
      }
      state := Inactive;
    }

    /** The transition table of `build_sardina_handler`: route the update to the handler of the state. */
    method Handle(e: Event)
      requires Valid()
      modifies this
      ensures Valid() && Snap() == Step(old(Snap()), userId, e)
    {
      match e {
        case Command(name) =>
          if state == Inactive && name == "sardina" {
            MenuSardina();
          }
        case Text(t) =>
          match state {
            case EsperandoClave => RecibirClave(t);
            case EsperandoFecha => RecibirFecha(t);
            case EsperandoProveedor => RecibirProveedor(t);
            case EsperandoCestas => RecibirCestas(ParseInt(Strip(t)));
            case EsperandoKg => RecibirKg(ParseFloat(Strip(t)));
            case EsperandoIdTrabajador => RecibirIdTrabajador(ParseInt(Strip(t)));
            case _ =>
          }
        case Callback(d) =>
          match state {
            case EsperandoEmpresa => RecibirEmpresa(d);
            case Confirmar => this.Confirmar(d);
            case _ =>
          }
      }
    }
  }
}
