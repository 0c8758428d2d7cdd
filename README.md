# Production-logging bot: authorization, data-collection dialogues, access handshake

A Telegram bot for a fish cannery. Supervisors use it to log production by area: sardine
reception ("Sardina"), the filling table ("Mesa") and the production line ("Línea"). This
project models three parts of the bot in Dafny and proves properties of the model.

## The three parts

- **The authorization registry** (`config.py`). It has:
  - a fixed set of administrators;
  - a set of users granted access at run time;
  - the membership tests `autorizado` and `es_admin`;
  - the grant and revoke operations;
  - the per-area access-key check `validar_clave`.

  It is modelled as the module `Config`. The value-level functions `Grant` and `Revoke` carry the properties. The class `Config.Registry` holds the grant set as a `set<int>` field that its methods change in place.

- **The data-collection dialogues** (`handlers/sardina.py`, `handlers/mesa.py`, `handlers/linea.py`), each a Telegram conversation. Each step validates one input, writes one key of the user's `context.user_data`, and moves to the next state. A rejected input leaves everything as it was.

  The confirmation step has three outcomes:
  - commit: one `agregar_registro` call for Sardina, one per listed worker for Mesa and Línea;
  - edit: back to the date, with every field kept;
  - cancel.

  Each area is a module with:
  - a `State` datatype;
  - one function per step handler (`OnClave`, `OnFecha`, …), taking the converted input;
  - the transition table `Step` and its iterate `Run`;
  - the class `Dialogue`, whose fields `state`, `userData` and `writes` its handler methods update in place.

  `writes` is the sequence of `agregar_registro` calls made. Each method is proved to leave the object exactly in the configuration the corresponding function computes. The lemmas about `Step` state what the handlers promise.

  The invariant `Inv` keeps the fields of every earlier step present and valid. Together with `Run`, it shows that the confirmation is only ever reached with all the fields it reads.

  The shared modules:
  - `Session`: the value bag, the events, the write record, the worker-ID list step and the fan-out;
  - `Dates`: `strptime("%d/%m/%Y")` and `strftime("%Y-%m-%d")`, whose output is the full-date of section 5.6 of RFC 3339, with the day limits of its section 5.7;
  - `Text`: `strip`, `split`, `isdigit`, `int`, `float`, `str`.

- **The step helpers** (`handlers/base_handlers.py`), modelled as `BaseHandlers`: methods on a `Context` object holding `user_data`. They return a caller-supplied state code, an abstract `Retry`, or `Crash` for the `IndexError` of `split("_")[1]`.

- **The access handshake** (`main.py`), modelled as `Bot`:
  - `/start` and `/menu` sit behind the authorization gate;
  - an unauthorized `/start` broadcasts an approve/reject request to every administrator, and a failed send is skipped;
  - the administrators' buttons carry `auth_approve_<id>` / `auth_reject_<id>`, which the handler splits and converts back before granting or revoking.

  The bot's messages are appended to `outbox`. Which chats a best-effort send reaches is the parameter `reachable`.

## Model

| member | source | states |
|---|---|---|
| Config.Authorized | config.py:23-25 | an administrator is always authorized; anyone else exactly when in the grant set |
| Config.Grant | config.py:37-40 | a non-administrator is added; an administrator leaves the set unchanged; no other member is affected |
| Config.Revoke | config.py:45-48 | the user is absent afterwards; nothing else is removed |
| Config.GrantAuthorizes | config.py:23-25 | after a grant, `autorizado(id)` holds |
| Config.GrantIdempotent | config.py:37-40 | granting twice equals granting once |
| Config.GrantKeepsDisjoint | config.py:7 | a grant keeps the grant set disjoint from the administrators |
| Config.ChangesOnlyTarget | config.py:37-49 | a grant or revoke of `id` leaves whether every other user is authorized unchanged |
| Config.RevokeDeauthorizes | config.py:45-48 | after a revoke, `autorizado(id)` holds exactly when `id` is an administrator |
| Config.RevokeAbsent | config.py:47 | revoking a user who is not in the grant set changes nothing |
| Config.RevokeUndoesGrant | config.py:37-48 | a revoke after a grant restores the grant set of a user who was not in it |
| Config.ValidarClave | config.py:31-33 | a key is accepted only for an area that has one |
| Config.ValidarClaveExact | config.py:9-16 | accepted exactly for the six areas, with key `"123"` |
| Config.UnknownAreaFails | config.py:31-33 | a missing area, or an area without a key, never validates |
| Config.Registry.constructor | config.py:5-7 | the fixed administrators, an empty grant set, and the disjointness invariant |
| Config.Registry.Autorizado | config.py:23-25 | `autorizado(id)`: an administrator always; anyone else exactly when in the grant set |
| Config.Registry.EsAdmin | config.py:27-29 | `es_admin(id)`: every administrator is also authorized and, under the invariant, never in the grant set |
| Config.Registry.AgregarUsuarioAutorizado | config.py:37-40 | the new grant set is `Grant` of the old one; the user is authorized afterwards; the invariant is kept |
| Config.Registry.RemoverUsuarioAutorizado | config.py:45-48 | the new grant set is `Revoke` of the old one; the user is authorized afterwards exactly when an administrator |
| Text.Strip | handlers/sardina.py:56 | the result has no surrounding whitespace and is no longer than the text; stripped text is returned unchanged |
| Text.StripRemovesOnlyWhitespace | handlers/sardina.py:56 | the result is a contiguous piece of the text, and everything removed on either side is whitespace |
| Text.StripIdempotent | handlers/sardina.py:56 | stripping twice equals stripping once |
| Text.StripLeadingSpace | handlers/mesa.py:54 | leading whitespace does not survive a strip |
| Text.Split | handlers/mesa.py:54 | at least one piece, and no piece contains the separator |
| Text.JoinSplit | handlers/mesa.py:54 | joining the pieces of a split gives back the text |
| Text.SplitJoin | main.py:42-43 | splitting separator-free pieces joined by the separator gives back those pieces |
| Text.SplitNoSep | handlers/base_handlers.py:54 | text without the separator is a single piece |
| Text.SplitAppend | main.py:98 | a separator after a separator-free head ends the first piece |
| Text.IntToString | main.py:42-43 | `str(i)` has no surrounding whitespace and no `_` |
| Text.ParseInt | handlers/sardina.py:67 | succeeds exactly on stripped text that is digits, with at most one leading sign; unsigned digits give their value; a negative result comes from a leading `-` |
| Text.ParseIntString | main.py:99 | `int(str(i)) == i` |
| Text.ParseIntStrip | handlers/sardina.py:67 | `int(s.strip())` equals `int(s)` |
| Text.ParseFloatStrip | handlers/sardina.py:81 | `float(s.strip())` equals `float(s)` |
| Text.UnsignedDecimal | handlers/sardina.py:81 | accepts only non-empty text of digits and points, gives a non-negative number, and reads a digit string as its value |
| Text.ParseFloat | handlers/sardina.py:81 | a success needs non-empty stripped text of digits and points after an optional sign; a negative result comes from a leading `-`; digit strings give their value |
| Text.ParseFloatExtendsParseInt | handlers/sardina.py:81 | wherever `int(s)` succeeds, `float(s)` is the same number |
| Text.NatToStringValue | handlers/mesa.py:80 | the digits of `str(n)` denote `n` |
| Dates.DaysInMonth | handlers/sardina.py:33 | 28 to 31 days; 29 exactly for February of a leap year |
| Dates.ParseDmy | handlers/sardina.py:33 | whatever `strptime("%d/%m/%Y")` accepts is a date that exists |
| Dates.DmyExact | handlers/sardina.py:33 | `DD/MM/YYYY` text is accepted exactly when it names a valid date, and is then read as that date |
| Dates.DmyRoundTrip | handlers/sardina.py:33 | every valid date typed as `DD/MM/YYYY` is read back as itself |
| Dates.PadNat | handlers/sardina.py:33 | zero padding to `w` digits: exactly `w` digits denoting `n` |
| Dates.FormatIso | handlers/sardina.py:33 | `strftime("%Y-%m-%d")`: ten characters, four digits, `-`, two digits, `-`, two digits |
| Dates.ParseIso | handlers/sardina.py:33 | accepts only ten characters with `-` at positions 4 and 7, and then a year up to 9999, a month 1-12 and a day that exists in that month |
| Dates.IsoRoundTrip | handlers/sardina.py:33 | the `%Y-%m-%d` text of a valid date is read back by the full-date grammar as that date |
| Dates.FullDateParses | handlers/sardina.py:33 | the full-date test holds exactly for the text the full-date reader accepts |
| Dates.ParseFecha | handlers/sardina.py:33-34 | whatever the date step stores is an RFC 3339 full-date |
| Dates.ParseFechaMeaning | handlers/sardina.py:32-37 | the step succeeds exactly when the stripped text is a date, and the stored text reads back as that date |
| Dates.FechaRoundTrip | handlers/sardina.py:33 | a date typed in operator form is stored as the same date in full-date form |
| Dates.FechaExample | handlers/sardina.py:33 | `"15/03/2024"` is stored as `"2024-03-15"` |
| Dates.LeapDayAccepted | handlers/sardina.py:33 | `29/02/2024` is accepted |
| Dates.LeapDayRejected | handlers/sardina.py:33 | `29/02/2023` is rejected |
| Dates.ThirtyFirstOfAprilRejected | handlers/sardina.py:33 | `31/04/2024` is rejected |
| Session.ParseIds | handlers/mesa.py:54 | every ID read is non-negative |
| Session.KeepDigitTokens | handlers/mesa.py:54 | at most one ID per token, none negative |
| Session.KeepDigitTokensAppend | handlers/mesa.py:54 | the filter keeps token order: it distributes over concatenation |
| Session.ParseIdsFirst | handlers/mesa.py:54 | the first comma-separated token is read on its own, in front of the rest |
| Session.ParseIdsSkipsWord | handlers/mesa.py:54 | a token that is not all digits is dropped and the rest is still read |
| Session.ParseIdsKeepsNumeral | handlers/mesa.py:54 | an all-digit token contributes its value in front of the rest |
| Session.KeepToken | handlers/mesa.py:54 | blanks in front of a token do not change what it contributes |
| Session.ParseIdsPadded | handlers/mesa.py:54 | blanks after a comma do not change what follows |
| Session.RenderIds | handlers/mesa.py:80 | `", ".join(map(str, ids))`: empty exactly for no IDs; otherwise starts and ends with a digit; only digits, commas and blanks |
| Session.ParseRenderedIds | handlers/mesa.py:80 | the summary's `", ".join` of a list (including duplicates and zeros) is read back as the same list |
| Session.FanOut | handlers/mesa.py:102-112 | one record per ID, in order, each the template with that worker ID |
| Sardina.Code | handlers/sardina.py:12 | the handler's integers: `range(8)` and -1 for `END`, one code per state |
| Sardina.CodeInjective | handlers/sardina.py:12 | distinct states have distinct codes |
| Sardina.OnClave | handlers/sardina.py:21-29 | keeps the invariant `Inv`; either nothing changes, or it moves to the date step, writing only `responsable_registro` and recording nothing |
| Sardina.OnFecha | handlers/sardina.py:31-44 | keeps the invariant `Inv`; either nothing changes, or it moves to the company step, writing only `fecha` and recording nothing |
| Sardina.OnEmpresa | handlers/sardina.py:46-53 | keeps the invariant `Inv`; either nothing changes, or it moves to the supplier step, writing only `empresa` and recording nothing |
| Sardina.OnProveedor | handlers/sardina.py:55-63 | a non-empty stripped supplier moves on, writing only `proveedor` |
| Sardina.OnCestas | handlers/sardina.py:65-76 | moves on, writing only `cestas`, or changes nothing |
| Sardina.OnKg | handlers/sardina.py:78-91 | moves on, writing only `kg`, or changes nothing |
| Sardina.OnIdTrabajador | handlers/sardina.py:93-120 | moves to the confirmation, writing only `trabajador_id`, or changes nothing |
| Sardina.OnConfirmar | handlers/sardina.py:122-147 | edit, commit or cancel keep the invariant |
| Sardina.Step | handlers/sardina.py:149-163 | every update keeps the invariant: each state implies the earlier fields |
| Sardina.Run | handlers/sardina.py:149-163 | any sequence of updates keeps the invariant |
| Sardina.ConfirmarHasAllFields | handlers/sardina.py:103-113 | from any `user_data`, the confirmation is reached only with date, company, supplier, baskets, kg, worker and supervisor present and valid |
| Sardina.StayMeansUnchanged | handlers/sardina.py:21-101 | a step that does not move changes nothing: a retry |
| Sardina.StepWritesOneKey | handlers/sardina.py:21-101 | each collecting step stays put, or moves to its successor writing exactly its own key |
| Sardina.NothingForgotten | handlers/sardina.py:147 | no step removes a key of `user_data` or undoes a write |
| Sardina.ClaveStep | handlers/sardina.py:22-29 | exactly the key `"123"` (after strip) is accepted; it records `responsable_registro` and moves to the date |
| Sardina.FechaStep | handlers/sardina.py:32-37 | exactly the valid `DD/MM/YYYY` dates are accepted; they are stored as `YYYY-MM-DD` with only `fecha` changed |
| Sardina.EmpresaStep | handlers/sardina.py:50-53 | the callback data is stored verbatim and the state moves to the supplier |
| Sardina.ProveedorStep | handlers/sardina.py:56-63 | accepted exactly when non-empty after strip; stored stripped |
| Sardina.IntegerSteps | handlers/sardina.py:66-73 | baskets and worker ID: accepted exactly as integers above zero, each stored under its own key |
| Sardina.KgStep | handlers/sardina.py:81-88 | kg accepted exactly as a number above zero |
| Sardina.ConfirmarStep | handlers/sardina.py:126-147 | `confirmar_si` makes exactly one write with the stored fields (`cantidad=kg`, `cantidad_auxiliar=cestas`, `tipo=proveedor`); edit goes back to the date; anything else writes nothing; `user_data` is kept |
| Sardina.Commit | handlers/sardina.py:133-142 | the written record: area `"Sardina"`, a full-date `fecha`, and `trabajador_id`, `empresa`, `cantidad=kg`, `responsable_id`, `cantidad_auxiliar=cestas` and `tipo=proveedor` from `user_data` |
| Sardina.CommandWhileActive | handlers/sardina.py:149-163 | a command during the dialogue is not handled |
| Sardina.Dialogue.constructor | handlers/sardina.py:149-151 | no dialogue is in progress, with any prior `user_data` |
| Sardina.Dialogue.MenuSardina | handlers/sardina.py:14-19 | enters the key step |
| Sardina.Dialogue.RecibirClave | handlers/sardina.py:21-29 | the new state is `OnClave` of the old one |
| Sardina.Dialogue.RecibirFecha | handlers/sardina.py:31-44 | the new state is `OnFecha` of the old one |
| Sardina.Dialogue.RecibirEmpresa | handlers/sardina.py:46-53 | the new state is `OnEmpresa` of the old one |
| Sardina.Dialogue.RecibirProveedor | handlers/sardina.py:55-63 | the new state is `OnProveedor` of the old one |
| Sardina.Dialogue.RecibirCestas | handlers/sardina.py:65-76 | the new state is `OnCestas` of the old one |
| Sardina.Dialogue.RecibirKg | handlers/sardina.py:78-91 | the new state is `OnKg` of the old one |
| Sardina.Dialogue.RecibirIdTrabajador | handlers/sardina.py:93-120 | the new state is `OnIdTrabajador` of the old one |
| Sardina.Dialogue.Confirmar | handlers/sardina.py:122-147 | the new state is `OnConfirmar` of the old one |
| Sardina.Dialogue.Handle | handlers/sardina.py:149-163 | the new state is `Step` of the old one, so the invariant is kept |
| Mesa.Code | handlers/mesa.py:10 | `range(6)` and -1 for `END`, one code per state |
| Mesa.CodeInjective | handlers/mesa.py:10 | distinct states have distinct codes |
| Mesa.OnClave | handlers/mesa.py:19-26 | keeps the invariant `Inv`; either nothing changes, or it moves to the date step, writing only `responsable_registro` and recording nothing |
| Mesa.OnFecha | handlers/mesa.py:28-41 | keeps the invariant `Inv`; either nothing changes, or it moves to the company step, writing only `fecha` and recording nothing |
| Mesa.OnEmpresa | handlers/mesa.py:43-50 | keeps the invariant `Inv`; either nothing changes, or it moves to the ID step, writing only `empresa` and recording nothing |
| Mesa.OnIds | handlers/mesa.py:52-63 | a non-empty list moves on, writing only `ids`; an empty one changes nothing |
| Mesa.OnCestas | handlers/mesa.py:65-90 | moves to the confirmation, writing only `cantidad`, or changes nothing |
| Mesa.OnConfirmar | handlers/mesa.py:92-117 | edit, commit or cancel keep the invariant |
| Mesa.Step | handlers/mesa.py:119-130 | every update keeps the invariant |
| Mesa.Run | handlers/mesa.py:119-130 | any sequence of updates keeps the invariant |
| Mesa.ConfirmarHasAllFields | handlers/mesa.py:75-83 | the confirmation is reached only with date, company, a non-empty ID list, a count above zero and the supervisor |
| Mesa.StayMeansUnchanged | handlers/mesa.py:19-90 | a step that does not move changes nothing |
| Mesa.StepWritesOneKey | handlers/mesa.py:19-90 | each collecting step stays put, or advances writing exactly its own key |
| Mesa.NothingForgotten | handlers/mesa.py:117 | no key removed, no write undone |
| Mesa.ClaveStep | handlers/mesa.py:20-26 | exactly `"123"` is accepted; it records `responsable_registro` |
| Mesa.FechaStep | handlers/mesa.py:29-41 | exactly the valid dates are accepted; they are stored as `YYYY-MM-DD` |
| Mesa.EmpresaStep | handlers/mesa.py:47-50 | the callback data is stored verbatim; the state moves to the IDs |
| Mesa.IdsStep | handlers/mesa.py:54-60 | the all-digit tokens are kept; without any, nothing changes |
| Mesa.CestasStep | handlers/mesa.py:66-90 | accepted exactly as an integer above zero, stored as `cantidad` |
| Mesa.ConfirmarStep | handlers/mesa.py:96-117 | `confirmar_si` makes `len(ids)` writes in list order; write i has `ids[i]`, and all share area `"Mesa"`, no type, no auxiliary count, and the stored company, count, supervisor and date; edit goes back to the date with every field kept; other data writes nothing and ends |
| Mesa.Template | handlers/mesa.py:103-112 | the record written per worker before the ID is set: area `"Mesa"`, a full-date `fecha`, the stored company, count and supervisor, no type and no auxiliary count |
| Mesa.CommandWhileActive | handlers/mesa.py:119-130 | a command during the dialogue is not handled |
| Mesa.Dialogue.constructor | handlers/mesa.py:119-121 | no dialogue is in progress |
| Mesa.Dialogue.MenuMesa | handlers/mesa.py:12-17 | enters the key step |
| Mesa.Dialogue.RecibirClave | handlers/mesa.py:19-26 | the new state is `OnClave` of the old one |
| Mesa.Dialogue.RecibirFecha | handlers/mesa.py:28-41 | the new state is `OnFecha` of the old one |
| Mesa.Dialogue.RecibirEmpresa | handlers/mesa.py:43-50 | the new state is `OnEmpresa` of the old one |
| Mesa.Dialogue.RecibirIds | handlers/mesa.py:52-63 | the new state is `OnIds` of the old one |
| Mesa.Dialogue.RecibirCestas | handlers/mesa.py:65-90 | the new state is `OnCestas` of the old one |
| Mesa.Dialogue.Confirmar | handlers/mesa.py:92-117 | the `for tid in ids` loop appends exactly the fan-out of the shared fields over the IDs |
| Mesa.Dialogue.Handle | handlers/mesa.py:119-130 | the new state is `Step` of the old one |
| Linea.Code | handlers/linea.py:10 | `range(7)` and -1 for `END`, one code per state |
| Linea.CodeInjective | handlers/linea.py:10 | distinct states have distinct codes |
| Linea.OnClave | handlers/linea.py:19-26 | keeps the invariant `Inv`; either nothing changes, or it moves to the date step, writing only `responsable_registro` and recording nothing |
| Linea.OnFecha | handlers/linea.py:28-41 | keeps the invariant `Inv`; either nothing changes, or it moves to the company step, writing only `fecha` and recording nothing |
| Linea.OnEmpresa | handlers/linea.py:43-54 | keeps the invariant `Inv`; either nothing changes, or it moves to the type step, writing only `empresa` and recording nothing |
| Linea.OnTipo | handlers/linea.py:56-63 | moves to the ID step, writing only `tipo` |
| Linea.OnIds | handlers/linea.py:65-76 | a non-empty list moves on, writing only `ids` |
| Linea.OnCaja | handlers/linea.py:78-104 | moves to the confirmation, writing only `cantidad`, or changes nothing |
| Linea.OnConfirmar | handlers/linea.py:106-131 | edit, commit or cancel keep the invariant |
| Linea.Step | handlers/linea.py:133-145 | every update keeps the invariant |
| Linea.Run | handlers/linea.py:133-145 | any sequence of updates keeps the invariant |
| Linea.ConfirmarHasAllFields | handlers/linea.py:88-97 | the confirmation is reached only with date, company, type, a non-empty ID list, a count above zero and the supervisor |
| Linea.StayMeansUnchanged | handlers/linea.py:19-86 | a step that does not move changes nothing |
| Linea.StepWritesOneKey | handlers/linea.py:19-86 | each collecting step stays put, or advances writing exactly its own key |
| Linea.NothingForgotten | handlers/linea.py:131 | no key removed, no write undone |
| Linea.ClaveStep | handlers/linea.py:20-26 | exactly `"123"` is accepted; it records `responsable_registro` |
| Linea.FechaStep | handlers/linea.py:29-34 | exactly the valid dates are accepted, stored as `YYYY-MM-DD` |
| Linea.EmpresaStep | handlers/linea.py:47-54 | the company is stored verbatim; the state moves to the type |
| Linea.TipoStep | handlers/linea.py:56-63 | the type is stored verbatim; the state moves to the IDs |
| Linea.IdsStep | handlers/linea.py:67-73 | the all-digit tokens are kept; without any, nothing changes |
| Linea.CajaStep | handlers/linea.py:80-86 | accepted exactly as an integer above zero, stored as `cantidad` |
| Linea.ConfirmarStep | handlers/linea.py:110-131 | `confirmar_si` makes one write per ID in order, with area `"Línea"` and `tipo` from `user_data`; edit goes back to the date; other data writes nothing |
| Linea.Template | handlers/linea.py:117-126 | the record written per worker before the ID is set: area `"Línea"`, a full-date `fecha`, the stored company, count, supervisor and `tipo`, no auxiliary count |
| Linea.CommandWhileActive | handlers/linea.py:133-145 | a command during the dialogue is not handled |
| Linea.Dialogue.constructor | handlers/linea.py:133-135 | no dialogue is in progress |
| Linea.Dialogue.MenuLinea | handlers/linea.py:12-17 | enters the key step |
| Linea.Dialogue.RecibirClave | handlers/linea.py:19-26 | the new state is `OnClave` of the old one |
| Linea.Dialogue.RecibirFecha | handlers/linea.py:28-41 | the new state is `OnFecha` of the old one |
| Linea.Dialogue.RecibirEmpresa | handlers/linea.py:43-54 | the new state is `OnEmpresa` of the old one |
| Linea.Dialogue.RecibirTipo | handlers/linea.py:56-63 | the new state is `OnTipo` of the old one |
| Linea.Dialogue.RecibirIds | handlers/linea.py:65-76 | the new state is `OnIds` of the old one |
| Linea.Dialogue.RecibirCaja | handlers/linea.py:78-104 | the new state is `OnCaja` of the old one |
| Linea.Dialogue.Confirmar | handlers/linea.py:106-131 | the write loop appends exactly the fan-out over the IDs |
| Linea.Dialogue.Handle | handlers/linea.py:133-145 | the new state is `Step` of the old one |
| BaseHandlers.AreaKeyOf | handlers/base_handlers.py:26 | `user_data.get("area_key")`: present exactly when a text `area_key` is stored |
| BaseHandlers.SecondPiece | handlers/base_handlers.py:54 | the second `_`-piece contains no `_` |
| BaseHandlers.MenuBase | handlers/base_handlers.py:10-22 | stores `area_key` and `area_name` and returns `state_clave` |
| BaseHandlers.RecibirClaveBase | handlers/base_handlers.py:24-32 | `state_fecha` exactly when the key of the stored area matches, otherwise retry; `user_data` is only read, so no `responsable_registro` is written |
| BaseHandlers.RecibirFechaBase | handlers/base_handlers.py:34-48 | a valid date is stored as `YYYY-MM-DD` and `state_empresa` is returned; otherwise retry with nothing stored |
| BaseHandlers.RecibirEmpresaBase | handlers/base_handlers.py:50-59 | stores the second `_`-piece and returns `next_state`, with or without a prompt; data without `_` raises before any store |
| BaseHandlers.MissingAreaFails | handlers/base_handlers.py:26-27 | without a stored area, no key is accepted |
| BaseHandlers.ClaveAfterMenu | handlers/base_handlers.py:20-27 | after `menu_base`, the key check tests exactly that area's key |
| BaseHandlers.SecondPieceExists | handlers/base_handlers.py:54 | the piece exists exactly when the data contains `_` |
| BaseHandlers.SecondPieceOfButton | handlers/base_handlers.py:54 | `<prefix>_<name>` yields `<name>` |
| BaseHandlers.OfferedCompanies | handlers/base_handlers.py:45-46 | the two offered buttons store `Kamada` and `Pariamar` |
| Bot.ApproveData | main.py:42 | the approve data starts with `auth_approve_` |
| Bot.RejectData | main.py:43 | the reject data starts with `auth_reject_` |
| Bot.ParseAuthData | main.py:98-129 | a decision exactly when the data has three pieces and the third converts, that number being the target; approve exactly when the first piece is `auth` and the data starts `auth_approve`; reject exactly when the first piece is `auth` and the data starts `auth_reject` |
| Bot.PrefixesExclusive | main.py:109-127 | no data starts with both `auth_approve` and `auth_reject`, so at most one branch can apply |
| Bot.RequesterName | main.py:64 | a missing or empty name becomes `N/A`; a non-empty name is kept |
| Bot.Solicitud | main.py:41-45 | the request names the requester and carries approve data starting `auth_approve_` and reject data starting `auth_reject_` |
| Bot.TargetName | main.py:102-106 | a failed lookup, or one that finds an empty name, shows `ID: <n>`; a non-empty name found is kept |
| Bot.ApproveRoundTrip | main.py:42-43 | each approve button is read back as approving its requester |
| Bot.RejectRoundTrip | main.py:42-43 | each reject button is read back as rejecting its requester |
| Bot.SolicitudButtons | main.py:41-44 | pressing either button of a request decides about the requester that request names |
| Bot.ButtonsDistinct | main.py:42-43 | approve and reject data differ; each determines its requester |
| Bot.WrongPieceCountRaises | main.py:98 | data not in three `_`-pieces raises |
| Bot.LenientApprove | main.py:109 | the approve test is a prefix test on the whole data: `auth_approved_<n>` also approves |
| Bot.RequestButtonsDecide | main.py:109-129 | approving a request authorizes the requester; rejecting it leaves them authorized only if an administrator |
| Bot.Bot.constructor | main.py:143-145 | the bot starts with nothing sent, over a registry that keeps its invariant |
| Bot.Bot.SendToAdministrators | main.py:39-52 | the loop sends only the given message, to distinct chats, exactly the reachable administrators; earlier messages are kept |
| Bot.BroadcastStep | main.py:39-52 | one more administrator handled keeps "once to each reachable administrator handled so far" |
| Bot.Bot.EnviarSolicitudAcceso | main.py:38-52 | sends only the request carrying the requester's buttons, to distinct chats, exactly the reachable administrators; earlier messages are kept |
| Bot.Bot.Start | main.py:55-64 | an authorized user gets the menu and nothing else; anyone else gets the refusal, then the request once to each reachable administrator and no menu |
| Bot.Bot.Menu | main.py:66-73 | the menu exactly when authorized, otherwise only the refusal |
| Bot.Bot.MenuCallback | main.py:75-85 | the button data is echoed as a command exactly when authorized, otherwise only the refusal |
| Bot.Bot.HandleAutorizacion | main.py:88-141 | a non-administrator gets only a refusal, with the registry unchanged; undecodable data raises with nothing changed; approve grants, reject revokes, and each is reported to the administrator and, when reachable, to the target; other `auth` data changes nothing |

## Left out

- For `Bot`, the Telegram transport is modelled only as "a message of this kind went to this chat". The replies of the dialogues and the base helpers are not modelled at all: the prompts, the retry messages and the confirmation summary (whose ID list is `Session.RenderIds`). Keyboards, markdown, emoji, `query.answer`, and editing rather than sending are left out. Replies to the update being handled are taken as delivered.
- Best-effort sends, inside `try`/`except`, are delivered exactly to the chats in the `reachable` parameter. The logging of a failure is left out.
- The username lookup with `get_chat` is the parameter `targetUsername`. `None` stands for a failed lookup.
- `database.py` is not part of this model. `writes` records the arguments of each `agregar_registro` call. The SQL INSERT drops `cantidad_auxiliar`, which is not modelled. `agregar_registro` defaults `fecha` to `datetime.now()` when none is given; these dialogues always pass one.
- `agregar_registro` is modelled as always succeeding. In the program, an exception from it propagates out of `confirmar` and the conversation stays in `CONFIRMAR`. For Mesa and Línea, the writes made before the failing one stand.
- `float()` is modelled on plain decimal notation read as an exact rational. IEEE rounding, exponents, `inf` and `nan` are left out.
- `int()` and `str.isdigit()` are modelled on ASCII digits only, with an optional sign for `int()`. Unicode digits and the `_` digit separators that both `int()` and `float()` accept (`"1_0"`) are left out.
- Text.ParseInt: accepts numerals of any length, while CPython 3.11 and later raise `ValueError` for more than 4300 digits, which the dialogues catch and retry. Its contract gives the value of unsigned digits and of `str(i)`; for other signed numerals, such as `"+5"` or `"-05"`, it states only that they are accepted and the sign of the result. `str.strip()` covers the ASCII whitespace only.
- `strptime` is modelled with ASCII digits.
- Dates.FormatIso: writes every year with four zero-padded digits. Depending on the CPython version and platform, `strftime("%Y")` may write the years 1 to 999 without padding (`"999"`, as glibc's own `%Y` does). On such a runtime the stored text for those years differs from the model's; recent releases on Linux pad to four digits themselves.
- The `/cancel` fallbacks route a command into `confirmar`, which then dereferences a missing callback query and raises. This is modelled as a command during a dialogue changing nothing, not as a clean cancel.
- `ConversationHandler.RETRY` is an abstract `Retry` outcome of the base helpers. The library constant itself is not part of this model.
- Sardina.Dialogue.RecibirCestas: takes the outcome of `int(update.message.text.strip())` rather than the text. `Handle` performs the conversion, and `Step` and the step lemmas are stated on the text.
- Sardina.Dialogue.RecibirKg: takes the outcome of `float(...)`, for the same reason.
- Sardina.Dialogue.RecibirIdTrabajador: takes the outcome of `int(...)`, for the same reason.
- Mesa.Dialogue.RecibirCestas: takes the outcome of `int(...)`, for the same reason.
- Linea.Dialogue.RecibirCaja: takes the outcome of `int(...)`, for the same reason.
- The worked example `"12, 34, abc, 56"` (giving `[12, 34, 56]`) is covered by the general lemmas on the ID list (order kept, words skipped, numerals kept, blank padding) rather than by a lemma on that literal text.
- Bot.Bot.EnviarSolicitudAcceso: the order in which the administrators are visited is unspecified, as for a Python set. The contract states which chats receive a request, not in what order.
- Each update is handled to completion. The async event loop and concurrent users are left out.
- Each dialogue is modelled as its own object with its own `userData`. In the program, the Sardina, Mesa and Línea conversations of one user share one `context.user_data` and compete for the same updates. For example, a Sardina conversation in `CONFIRMAR` takes the `Kamada` button of a Mesa conversation. This sharing and competition is not modelled.
- The callback handlers for `^auth_` and `^/.*$` are registered before the conversations (main.py:152-155), so those callbacks never reach a dialogue. The dialogue models, such as the confirmation and company steps, treat any callback data they get as a dialogue event; the routing that withholds these two kinds is not modelled.
- `main()`, the handler registration, logging, the `DEBUG` prints of `agregar_usuario_autorizado` and `remover_usuario_autorizado` (config.py:43, 49), the bot token, `_menu_keyboard` (the menu is one reply kind) and the unused `EMPRESA_PERMISOS` are left out.
- The other areas and the report handlers (`empaque`, `trabajadores`, `resumen_por_fecha`, `reporte_periodo`) are not part of this model.
