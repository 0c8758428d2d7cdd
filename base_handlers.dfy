/**
 * The generic step helpers shared by production dialogues: entry with the area recorded in
 * `user_data`, the access key checked against that stored area, the date step, and the company
 * step that reads the company out of a `empresa_<name>` button.  The state codes are the
 * caller's parameters.
 */
module BaseHandlers {
  import opened Wrappers
  import opened Text
  import opened Dates
  import opened Session
  import Config

  /** What a step helper returns: a caller-supplied state code, the retry result, or an exception. */
  datatype Outcome = Goto(state: int) | Retry | Crash

  /** `context.user_data`, which the helpers read and update in place. */
  class Context {
    var userData: UserData

    constructor(userData: UserData)
      ensures this.userData == userData
    {
      this.userData := userData;
    }
  }

  /**
   * `user_data.get("area_key")` as `validar_clave` sees it: `None` when the key is missing, and
   * when it holds something other than text (no access key is stored under a non-text area).
   */
  function AreaKeyOf(ud: UserData): (r: Option<string>)
    ensures r.Some? <==> AREA_KEY in ud && ud[AREA_KEY].StrVal?
    ensures r.Some? ==> r.value == ud[AREA_KEY].s
  {
    if AREA_KEY in ud && ud[AREA_KEY].StrVal? then Some(ud[AREA_KEY].s) else None
  }

  /** `q.data.split("_")[1]`: the second `_`-separated piece, `None` for the `IndexError`. */
  function SecondPiece(data: string): (r: Option<string>)
    ensures r.Some? ==> '_' !in r.value
  {
    var parts := Split(data, '_');
    if |parts| < 2 then None else Some(parts[1])
  }

  /** `menu_base`: record the area key and name, return `state_clave`. */
  method MenuBase(ctx: Context, areaName: string, areaKey: string, stateClave: int) returns (r: int)
    modifies ctx
    ensures r == stateClave
    ensures ctx.userData == old(ctx.userData)[AREA_KEY := StrVal(areaKey)][AREA_NAME := StrVal(areaName)]
  {
    ctx.userData := ctx.userData[AREA_KEY := StrVal(areaKey)];
    ctx.userData := ctx.userData[AREA_NAME := StrVal(areaName)];
    r := stateClave;
  }

  /**
   * `recibir_clave_base`: the stripped text must be the key of the stored area; success returns
   * `state_fecha`, failure the retry result.  `user_data` is only read.
   */
  method RecibirClaveBase(ctx: Context, text: string, stateFecha: int) returns (r: Outcome)
    ensures r == Goto(stateFecha) <==> Config.ValidarClave(AreaKeyOf(ctx.userData), Strip(text))
    ensures r == Goto(stateFecha) || r == Retry
  {
    var areaKey := AreaKeyOf(ctx.userData);
    if !Config.ValidarClave(areaKey, Strip(text)) {
      return Retry;
    }
    return Goto(stateFecha);
  }

  /** `recibir_fecha_base`: a valid date is stored as a full-date; anything else is a retry with nothing stored. */
  method RecibirFechaBase(ctx: Context, text: string, stateEmpresa: int) returns (r: Outcome)
    modifies ctx
    ensures ParseFecha(text).Some? ==> r == Goto(stateEmpresa) && ctx.userData == old(ctx.userData)[FECHA := StrVal(ParseFecha(text).value)]
    ensures ParseFecha(text).None? ==> r == Retry && ctx.userData == old(ctx.userData)
    ensures HasFecha(ctx.userData) || ctx.userData == old(ctx.userData)
  {
    var fecha := ParseFecha(text);
    if fecha.None? {
      return Retry;
    }
    ctx.userData := ctx.userData[FECHA := StrVal(fecha.value)];
    return Goto(stateEmpresa);
  }

  /**
   * `recibir_empresa_base`: store the second `_`-separated piece of the button data and return
   * `next_state`, with or without `prompt_text`; data without `_` raises before anything is stored.
   */
  method RecibirEmpresaBase(ctx: Context, data: string, nextState: int, promptText: Option<string>) returns (r: Outcome)
    modifies ctx
    ensures SecondPiece(data).Some? ==> r == Goto(nextState) && ctx.userData == old(ctx.userData)[EMPRESA := StrVal(SecondPiece(data).value)]
    ensures SecondPiece(data).None? ==> r == Crash && ctx.userData == old(ctx.userData)
  {
    var parts := Split(data, '_');
    if |parts| < 2 {
      return Crash;
    }
    ctx.userData := ctx.userData[EMPRESA := StrVal(parts[1])];
    return Goto(nextState);
  }

  // ---------------------------------------------------------------------
  // Properties of the helpers

  /** Without a stored area (or with a non-text one) no key is ever accepted. */
  lemma MissingAreaFails(ud: UserData, text: string)
    requires AREA_KEY !in ud || !ud[AREA_KEY].StrVal?
    ensures !Config.ValidarClave(AreaKeyOf(ud), Strip(text))
  {
  }

  /** After `menu_base` for an area with an access key, the key check tests exactly that area's key. */
  lemma ClaveAfterMenu(ud: UserData, areaName: string, areaKey: string, text: string)
    ensures var ud' := ud[AREA_KEY := StrVal(areaKey)][AREA_NAME := StrVal(areaName)];
            Config.ValidarClave(AreaKeyOf(ud'), Strip(text))
            <==> areaKey in Config.CLAVES_ACCESO && Strip(text) == Config.CLAVES_ACCESO[areaKey]
  {
    var ud' := ud[AREA_KEY := StrVal(areaKey)][AREA_NAME := StrVal(areaName)];
    assert AreaKeyOf(ud') == Some(areaKey);
  }

  /** The company piece exists exactly when the data contains a `_`. */
  lemma SecondPieceExists(data: string)
    ensures SecondPiece(data).Some? <==> '_' in data
  {
    JoinSplit(data, '_');
    if '_' !in data {
      SplitNoSep(data, '_');
    }
  }

  /** A button `<prefix>_<name>` with no further `_` yields exactly `<name>`. */
  lemma SecondPieceOfButton(prefix: string, name: string)
    requires '_' !in prefix && '_' !in name
    ensures SecondPiece(prefix + "_" + name) == Some(name)
  {
    SplitNoSep(name, '_');
    SplitAppend(prefix, name, '_');
    assert prefix + "_" + name == prefix + ['_'] + name;
  }

  /** The two offered buttons store `Kamada` and `Pariamar`. */
  lemma OfferedCompanies()
    ensures SecondPiece("empresa_Kamada") == Some("Kamada")
    ensures SecondPiece("empresa_Pariamar") == Some("Pariamar")
  {
    SecondPieceOfButton("empresa", "Kamada");
    assert "empresa" + "_" + "Kamada" == "empresa_Kamada";
    SecondPieceOfButton("empresa", "Pariamar");
    assert "empresa" + "_" + "Pariamar" == "empresa_Pariamar";
  }
}
