/**
 * What the production dialogues share: the values kept in `context.user_data`, the inbound
 * events, the arguments of one `agregar_registro` call, the worker-ID list step and the
 * one-call-per-worker fan-out of the commit.
 */
module Session {
  import opened Wrappers
  import opened Text
  import opened Dates

  /** A value stored in `context.user_data`. */
  datatype Value =
    | IntVal(i: int)
    | RealVal(x: real)
    | StrVal(s: string)
    | IdsVal(ids: seq<int>)

  /** `context.user_data`: the per-user field bag, never cleared by the dialogues. */
  type UserData = map<string, Value>

  /** An update the dialogues react to: a plain text message, a button callback, or a command. */
  datatype Event =
    | Text(text: string)
    | Callback(data: string)
    | Command(name: string)

  /** The arguments of one `agregar_registro(...)` call. */
  datatype Registro = Registro(
    trabajadorId: int,
    area: string,
    empresa: string,
    cantidad: real,
    responsableId: int,
    cantidadAuxiliar: Option<int>,
    tipo: Option<string>,
    fecha: string)

  /**
   * A dialogue's observable configuration: its conversation state, the user's `user_data`
   * and the `agregar_registro` calls made so far, in order.
   */
  datatype Conf<S> = Conf(state: S, userData: UserData, writes: seq<Registro>)

  // Keys of `context.user_data`
  const RESPONSABLE := "responsable_registro"
  const FECHA := "fecha"
  const EMPRESA := "empresa"
  const PROVEEDOR := "proveedor"
  const CESTAS := "cestas"
  const KG := "kg"
  const TRABAJADOR_ID := "trabajador_id"
  const IDS := "ids"
  const CANTIDAD := "cantidad"
  const TIPO := "tipo"
  const AREA_KEY := "area_key"
  const AREA_NAME := "area_name"

  predicate HasInt(ud: UserData, k: string) {
    k in ud && ud[k].IntVal?
  }

  predicate HasStr(ud: UserData, k: string) {
    k in ud && ud[k].StrVal?
  }

  /** `responsable_registro` holds the acting user's ID. */
  predicate HasResponsable(ud: UserData, userId: int) {
    RESPONSABLE in ud && ud[RESPONSABLE] == IntVal(userId)
  }

  /** `fecha` holds an RFC 3339 full-date, as the date step stores it. */
  predicate HasFecha(ud: UserData) {
    HasStr(ud, FECHA) && IsFullDate(ud[FECHA].s)
  }

  /** Key `k` holds an integer greater than zero. */
  predicate HasPosInt(ud: UserData, k: string) {
    HasInt(ud, k) && ud[k].i > 0
  }

  /** Key `k` holds a number greater than zero. */
  predicate HasPosReal(ud: UserData, k: string) {
    k in ud && ud[k].RealVal? && ud[k].x > 0.0
  }

  /** Key `k` holds a non-empty text without surrounding whitespace. */
  predicate HasStrippedText(ud: UserData, k: string) {
    HasStr(ud, k) && ud[k].s != [] && Stripped(ud[k].s)
  }

  /** `ids` holds a non-empty list of worker IDs, none negative. */
  predicate HasIds(ud: UserData) {
    IDS in ud && ud[IDS].IdsVal? && |ud[IDS].ids| > 0
    && forall i :: 0 <= i < |ud[IDS].ids| ==> ud[IDS].ids[i] >= 0
  }

  /** `after` is `before` with key `k` assigned, and nothing else touched. */
  predicate WritesOnly(before: UserData, after: UserData, k: string) {
    k in after && after == before[k := after[k]]
  }

  /**
   * A collecting step's outcome: nothing changes (the step asks again), or the dialogue moves to
   * `next` having assigned `k` and nothing else.
   */
  predicate AdvancesOrStays<S(==)>(c: Conf<S>, r: Conf<S>, next: S, k: string) {
    r == c || (r.state == next && r.writes == c.writes && WritesOnly(c.userData, r.userData, k))
  }

  // ---------------------------------------------------------------------
  // The worker-ID list: [int(x.strip()) for x in text.split(",") if x.strip().isdigit()]

  /** One token's contribution: its value when its stripped text is all digits, else nothing. */
  function TokenIds(x: string): (r: seq<int>)
    ensures |r| <= 1 && forall i :: 0 <= i < |r| ==> r[i] >= 0
  {
    var t := Strip(x);
    if IsDigits(t) then [DigitsValue(t) as int] else []
  }

  /** The values of the tokens whose stripped text is all digits, in order. */
  function KeepDigitTokens(tokens: seq<string>): (r: seq<int>)
    ensures |r| <= |tokens|
    ensures forall i :: 0 <= i < |r| ==> r[i] >= 0
    decreases |tokens|
  {
    if tokens == [] then [] else TokenIds(tokens[0]) + KeepDigitTokens(tokens[1..])
  }

  /** The whole ID step: split at commas, keep the numeral tokens. */
  function ParseIds(text: string): (r: seq<int>)
    ensures forall i :: 0 <= i < |r| ==> r[i] >= 0
  {
    KeepDigitTokens(Split(text, ','))
  }

  /** Filtering keeps the order of the tokens: it distributes over concatenation. */
  lemma {:induction false} KeepDigitTokensAppend(a: seq<string>, b: seq<string>)
    ensures KeepDigitTokens(a + b) == KeepDigitTokens(a) + KeepDigitTokens(b)
    decreases |a|
  {
    if a != [] {
      assert (a + b)[0] == a[0];
      assert (a + b)[1..] == a[1..] + b;
      KeepDigitTokensAppend(a[1..], b);
    } else {
      assert a + b == b;
    }
  }

  /** `", ".join(map(str, ids))`, the list as the confirmation summary shows it. */
  function RenderIds(ids: seq<int>): (r: string)
    requires forall i :: 0 <= i < |ids| ==> ids[i] >= 0
    ensures |r| == 0 <==> |ids| == 0
    ensures |ids| > 0 ==> IsDigit(r[0]) && IsDigit(r[|r| - 1])
    ensures forall k :: 0 <= k < |r| ==> IsDigit(r[k]) || r[k] == ',' || r[k] == ' '
    decreases |ids|
  {
    if ids == [] then ""
    else if |ids| == 1 then NatToString(ids[0])
    else NatToString(ids[0]) + ", " + RenderIds(ids[1..])
  }

  lemma KeepDigitTokensPadded(t: string, rest: seq<string>)
    ensures KeepDigitTokens([" " + t] + rest) == KeepDigitTokens([t] + rest)
  {
    calc {
      KeepDigitTokens([" " + t] + rest);
      { KeepDigitTokensAppend([" " + t], rest); }
      KeepDigitTokens([" " + t]) + KeepDigitTokens(rest);
      { StripLeadingSpace(" ", t); KeepSingle(" " + t); KeepSingle(t); }
      KeepDigitTokens([t]) + KeepDigitTokens(rest);
      { KeepDigitTokensAppend([t], rest); }
      KeepDigitTokens([t] + rest);
    }
  }

  lemma SplitPadded(s: string)
    ensures Split(" " + s, ',') == [" " + Split(s, ',')[0]] + Split(s, ',')[1..]
  {
    assert (" " + s)[1..] == s;
  }

  lemma KeepNumeral(n: nat)
    ensures KeepDigitTokens([NatToString(n)]) == [n]
  {
    var s := NatToString(n);
    NatToStringValue(n);
    assert Stripped(s) by { assert IsDigit(s[0]) && IsDigit(s[|s| - 1]); }
    var none: seq<string> := [];
    assert [s][1..] == none;
  }

  /** Blanks after a comma do not change the tokens that follow it. */
  lemma ParseIdsPadded(rest: string)
    ensures KeepDigitTokens(Split(" " + rest, ',')) == ParseIds(rest)
  {
    var parts := Split(rest, ',');
    calc {
      KeepDigitTokens(Split(" " + rest, ','));
      { SplitPadded(rest); }
      KeepDigitTokens([" " + parts[0]] + parts[1..]);
      { KeepDigitTokensPadded(parts[0], parts[1..]); }
      KeepDigitTokens([parts[0]] + parts[1..]);
      { assert [parts[0]] + parts[1..] == parts; }
      KeepDigitTokens(parts);
    }
  }

  /** The first comma-separated token is read on its own, in front of the rest of the list. */
  lemma ParseIdsFirst(a: string, b: string)
    requires ',' !in a
    ensures ParseIds(a + [','] + b) == KeepDigitTokens([a]) + ParseIds(b)
  {
    SplitAppend(a, b, ',');
    KeepDigitTokensAppend([a], Split(b, ','));
  }

  lemma CommaSpace(a: string, b: string)
    ensures a + ", " + b == a + [','] + (" " + b)
  {
    assert ", " == [','] + " ";
  }

  /** Reading a rendered list takes its first ID, then reads the rendering of the rest. */
  lemma ParseRenderedCons(ids: seq<int>)
    requires |ids| >= 2 && forall i :: 0 <= i < |ids| ==> ids[i] >= 0
    ensures ParseIds(RenderIds(ids)) == [ids[0]] + ParseIds(RenderIds(ids[1..]))
  {
    var head, rest := NatToString(ids[0]), RenderIds(ids[1..]);
    DigitsNoComma(head);
    calc {
      ParseIds(RenderIds(ids));
      { assert RenderIds(ids) == head + ", " + rest; CommaSpace(head, rest); }
      ParseIds(head + [','] + (" " + rest));
      { ParseIdsFirst(head, " " + rest); }
      KeepDigitTokens([head]) + KeepDigitTokens(Split(" " + rest, ','));
      { KeepNumeral(ids[0]); ParseIdsPadded(rest); }
      [ids[0]] + ParseIds(rest);
    }
  }

  /** The summary's rendering of a worker list is read back as the same list. */
  lemma {:induction false} ParseRenderedIds(ids: seq<int>)
    requires forall i :: 0 <= i < |ids| ==> ids[i] >= 0
    ensures ParseIds(RenderIds(ids)) == ids
    decreases |ids|
  {
    if ids == [] {
      calc {
        ParseIds(RenderIds(ids));
        { assert RenderIds(ids) == []; SplitNoSep([], ','); }
        KeepDigitTokens([[]]);
        { KeepSingle([]); }
        [];
      }
    } else if |ids| == 1 {
      var head := NatToString(ids[0]);
      calc {
        ParseIds(RenderIds(ids));
        { DigitsNoComma(head); SplitNoSep(head, ','); }
        KeepDigitTokens([head]);
        { KeepNumeral(ids[0]); }
        [ids[0]];
      }
    } else {
      calc {
        ParseIds(RenderIds(ids));
        { ParseRenderedCons(ids); }
        [ids[0]] + ParseIds(RenderIds(ids[1..]));
        { ParseRenderedIds(ids[1..]); }
        [ids[0]] + ids[1..];
      }
    }
  }

  lemma DigitsNoComma(s: string)
    requires AllDigits(s)
    ensures ',' !in s
  {
    forall i | 0 <= i < |s| ensures s[i] != ',' { }
  }

  lemma KeepSingle(t: string)
    ensures KeepDigitTokens([t]) == TokenIds(t)
  {
    var none: seq<string> := [];
    assert [t][1..] == none;
  }

  /** Blanks in front of a token do not change what it contributes. */
  lemma KeepToken(pad: string, s: string)
    requires forall i :: 0 <= i < |pad| ==> IsSpace(pad[i])
    requires Stripped(s)
    ensures KeepDigitTokens([pad + s]) == if IsDigits(s) then [DigitsValue(s) as int] else []
  {
    StripLeadingSpace(pad, s);
    KeepSingle(pad + s);
  }

  /** A token that is not a numeral is skipped; the rest of the list is still read. */
  lemma ParseIdsSkipsWord(a: string, b: string)
    requires ',' !in a && !IsDigits(Strip(a))
    ensures ParseIds(a + [','] + b) == ParseIds(b)
  {
    ParseIdsFirst(a, b);
    KeepSingle(a);
  }

  /** A numeral token contributes its value in front of the rest of the list. */
  lemma ParseIdsKeepsNumeral(a: string, b: string)
    requires ',' !in a && IsDigits(Strip(a))
    ensures ParseIds(a + [','] + b) == [DigitsValue(Strip(a)) as int] + ParseIds(b)
  {
    ParseIdsFirst(a, b);
    KeepSingle(a);
  }

  // ---------------------------------------------------------------------
  // The commit fan-out: one call per listed worker, in list order

  /** One call per worker ID, each equal to `template` except for `trabajadorId`. */
  function FanOut(template: Registro, ids: seq<int>): (r: seq<Registro>)
    ensures |r| == |ids|
    ensures forall i :: 0 <= i < |r| ==> r[i] == template.(trabajadorId := ids[i])
    decreases |ids|
  {
    if ids == [] then []
    else FanOut(template, ids[..|ids| - 1]) + [template.(trabajadorId := ids[|ids| - 1])]
  }
}
