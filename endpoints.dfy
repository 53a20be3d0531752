/**
 * The request-handling rules of the API (backend/app/main.py) that do not
 * depend on the database: the login token's lifetime, the chat transcript
 * built from stored rows and the rows the history query returns, the partial
 * update of a user, the self-delete guard, the global statistics and the
 * listing range. Query results are inputs; the database itself is left out.
 */
module Endpoints {
  import opened Wrappers
  import opened Strings
  import Config
  import Prompts

  // ---------------------------------------------------------------------------
  // Login
  // ---------------------------------------------------------------------------

  /** The stored user a successful authentication yields. */
  datatype Account = Account(id: string, email: string, rol: string)

  datatype TokenResponse = TokenResponse(accessToken: string, tokenType: string, expiresIn: int, user: Account)

  /**
   * `login`: no authenticated user is a 401; otherwise a bearer token whose
   * lifetime in seconds is the configured number of hours. The token itself
   * comes from the JWT library and is a parameter.
   */
  function Login(account: Option<Account>, settings: Config.Settings, token: string): (r: Result<TokenResponse, HttpError>)
    ensures r.Failure? <==> account.None?
    ensures r.Failure? ==> r.error.status == 401
    ensures r.Success? ==> r.value.accessToken == token && r.value.tokenType == "bearer" &&
                           r.value.user == account.value && r.value.expiresIn == settings.jwtExpirationHours * 3600
  {
    if account.None? then Failure(HttpError(401, "Email o contraseña incorrectos"))
    else Success(TokenResponse(token, "bearer", settings.jwtExpirationHours * 3600, account.value))
  }

  /** With the default settings a token lives one day. */
  lemma DefaultTokenLivesOneDay(account: Account, baseUrl: string, username: string, password: string, token: string)
    ensures var r := Login(Some(account), Config.WithDefaults(baseUrl, username, password), token);
            r.Success? && r.value.expiresIn == 86400
  {
  }

  // ---------------------------------------------------------------------------
  // Chat history
  // ---------------------------------------------------------------------------

  /** A stored chat exchange. */
  datatype ChatRow = ChatRow(pregunta: string, respuesta: string)

  /** The transcript of some exchanges: the question, then the answer, for each in order. */
  function TranscriptLines(rows: seq<ChatRow>): (lines: seq<string>)
    ensures |lines| == 2 * |rows|
    ensures forall i :: 0 <= i < |rows| ==>
              lines[2 * i] == "Humano: " + rows[i].pregunta && lines[2 * i + 1] == "Asistente: " + rows[i].respuesta
  {
    if rows == [] then []
    else
      var last := rows[|rows| - 1];
      TranscriptLines(rows[..|rows| - 1]) + ["Humano: " + last.pregunta, "Asistente: " + last.respuesta]
  }

  /** `chat_analisis` builds the history list row by row. */
  method BuildHistorial(rows: seq<ChatRow>) returns (historial: seq<string>)
    ensures historial == TranscriptLines(rows)
  {
    historial := [];
    for i := 0 to |rows|
      invariant historial == TranscriptLines(rows[..i])
    {
      assert rows[..i + 1][..i] == rows[..i];
      historial := historial + ["Humano: " + rows[i].pregunta];
      historial := historial + ["Asistente: " + rows[i].respuesta];
    }
    assert rows[..|rows|] == rows;
  }

  /** The transcript of consecutive exchanges is the transcript of each part, one after the other. */
  lemma {:induction false} TranscriptAppend(a: seq<ChatRow>, b: seq<ChatRow>)
    ensures TranscriptLines(a + b) == TranscriptLines(a) + TranscriptLines(b)
    decreases |b|
  {
    if b == [] {
      assert a + b == a;
    } else {
      var init := b[..|b| - 1];
      assert (a + b)[..|a + b| - 1] == a + init;
      TranscriptAppend(a, init);
    }
  }

  function Min(a: nat, b: nat): nat {
    if a < b then a else b
  }

  /**
   * The history query as written: the exchanges of the analysis in ascending
   * creation order, limited to `limit` rows, so the OLDEST ones.
   */
  function OldestRows(stored: seq<ChatRow>, limit: nat): seq<ChatRow> {
    stored[..Min(limit, |stored|)]
  }

  /** The query as intended: the `limit` NEWEST exchanges, in creation order. */
  function NewestRows(stored: seq<ChatRow>, limit: nat): seq<ChatRow> {
    stored[|stored| - Min(limit, |stored|)..]
  }

  /**
   * The history lines the chat model sees, as written: the last `max` lines
   * of the oldest `max` exchanges. Once there are more than `max` exchanges,
   * the last line is the answer of exchange `max`, not that of the latest one.
   */
  function ContextLinesAsWritten(stored: seq<ChatRow>, max: nat): (r: seq<string>)
    ensures 0 < max < |stored| ==> |r| == max && r[max - 1] == "Asistente: " + stored[max - 1].respuesta
  {
    var oldest := OldestRows(stored, max);
    var all := TranscriptLines(oldest);
    if 0 < max < |stored| then
      assert all[2 * (max - 1) + 1] == "Asistente: " + oldest[max - 1].respuesta;
      assert Prompts.TailSlice(all, max) == all[2 * max - max..];
      Prompts.TailSlice(all, max)
    else
      Prompts.TailSlice(all, max)
  }

  /**
   * The history lines the chat model sees with the newest exchanges fetched:
   * the last `max` lines of the whole conversation, so the last line is the
   * answer of the latest exchange.
   */
  function ContextLines(stored: seq<ChatRow>, max: nat): (r: seq<string>)
    ensures max > 0 ==> r == Prompts.TailSlice(TranscriptLines(stored), max)
    ensures 0 < max <= |stored| ==> |r| == max && r[max - 1] == "Asistente: " + stored[|stored| - 1].respuesta
  {
    var newest := NewestRows(stored, max);
    var all := TranscriptLines(newest);
    if max > 0 then
      NewestLinesAreLatest(stored, max);
      if max <= |stored| then
        assert all[2 * (max - 1) + 1] == "Asistente: " + newest[max - 1].respuesta;
        assert Prompts.TailSlice(all, max) == all[2 * max - max..];
        Prompts.TailSlice(all, max)
      else
        Prompts.TailSlice(all, max)
    else
      Prompts.TailSlice(all, max)
  }

  /** The last `max` lines of the newest `max` exchanges are the last `max` lines of the whole conversation. */
  lemma NewestLinesAreLatest(stored: seq<ChatRow>, max: nat)
    requires max > 0
    ensures Prompts.TailSlice(TranscriptLines(NewestRows(stored, max)), max) == Prompts.TailSlice(TranscriptLines(stored), max)
  {
    var k := Min(max, |stored|);
    var older := stored[..|stored| - k];
    var newer := NewestRows(stored, max);
    assert stored == older + newer;
    TranscriptAppend(older, newer);
    var lo := TranscriptLines(older);
    var ln := TranscriptLines(newer);
    if k == max {
      TailOfLonger(lo, ln, max);
    } else {
      assert older == [];
      assert lo + ln == ln;
    }
  }

  /** Keeping the last `max` lines only looks into the last part when that part has `max` lines or more. */
  lemma TailOfLonger(xs: seq<string>, ys: seq<string>, max: nat)
    requires 0 < max <= |ys|
    ensures Prompts.TailSlice(xs + ys, max) == Prompts.TailSlice(ys, max)
  {
    var whole := xs + ys;
    assert whole[|whole| - max..] == ys[|ys| - max..];
  }

  /** Three exchanges and a limit of two: the chat never sees the third question. */
  lemma AsWrittenMissesThirdQuestion()
    ensures var stored := [ChatRow("a", "1"), ChatRow("b", "2"), ChatRow("c", "3")];
            ContextLinesAsWritten(stored, 2) == ["Humano: b", "Asistente: 2"] &&
            ContextLines(stored, 2) == ["Humano: c", "Asistente: 3"]
  {
    var stored := [ChatRow("a", "1"), ChatRow("b", "2"), ChatRow("c", "3")];
    var oldest := OldestRows(stored, 2);
    assert oldest == stored[..2];
    var all := TranscriptLines(oldest);
    assert ContextLinesAsWritten(stored, 2) == [all[2], all[3]];
    assert all[2] == "Humano: " + "b" == "Humano: b";
    assert all[3] == "Asistente: " + "2" == "Asistente: 2";
    var newest := NewestRows(stored, 2);
    assert newest == stored[1..];
    var allNew := TranscriptLines(newest);
    assert ContextLines(stored, 2) == [allNew[2], allNew[3]];
    assert allNew[2] == "Humano: " + "c" == "Humano: c";
    assert allNew[3] == "Asistente: " + "3" == "Asistente: 3";
  }

  // ---------------------------------------------------------------------------
  // Users
  // ---------------------------------------------------------------------------

  datatype Rol = Admin | User

  function RolValue(rol: Rol): string {
    match rol
    case Admin => "admin"
    case User => "user"
  }

  /** `UsuarioUpdate`: every field may be left out. */
  datatype UsuarioUpdate = UsuarioUpdate(nombre: Option<string>, rol: Option<Rol>, activo: Option<bool>, password: Option<string>)

  /** A column value of the update. */
  datatype Column = Text(text: string) | Flag(flag: bool)

  /**
   * `m` is the update payload for `u`: a column for each field that is given
   * and no other, the role by its value and the password only as its hash.
   */
  predicate IsUpdateFor(m: map<string, Column>, u: UsuarioUpdate, hashPassword: string -> string) {
    m.Keys <= {"nombre", "rol", "activo", "password_hash"} &&
    ("nombre" in m <==> u.nombre.Some?) && (u.nombre.Some? ==> m["nombre"] == Text(u.nombre.value)) &&
    ("rol" in m <==> u.rol.Some?) && (u.rol.Some? ==> m["rol"] == Text(RolValue(u.rol.value))) &&
    ("activo" in m <==> u.activo.Some?) && (u.activo.Some? ==> m["activo"] == Flag(u.activo.value)) &&
    ("password_hash" in m <==> u.password.Some?) &&
    (u.password.Some? ==> m["password_hash"] == Text(hashPassword(u.password.value)))
  }

  /** The update payload of `actualizar_usuario`. */
  method BuildUpdateData(u: UsuarioUpdate, hashPassword: string -> string) returns (updateData: map<string, Column>)
    ensures IsUpdateFor(updateData, u, hashPassword)
  {
    updateData := map[];
    if u.nombre.Some? {
      updateData := updateData["nombre" := Text(u.nombre.value)];
    }
    if u.rol.Some? {
      updateData := updateData["rol" := Text(RolValue(u.rol.value))];
    }
    if u.activo.Some? {
      updateData := updateData["activo" := Flag(u.activo.value)];
    }
    if u.password.Some? {
      updateData := updateData["password_hash" := Text(hashPassword(u.password.value))];
    }
  }

  /** The checks of `actualizar_usuario` before the write: an update with no field is a 400. */
  method PrepareUpdate(u: UsuarioUpdate, hashPassword: string -> string) returns (r: Result<map<string, Column>, HttpError>)
    ensures r.Failure? <==> u.nombre.None? && u.rol.None? && u.activo.None? && u.password.None?
    ensures r.Failure? ==> r.error == HttpError(400, "No hay datos para actualizar")
    ensures r.Success? ==> IsUpdateFor(r.value, u, hashPassword) && "password" !in r.value && |r.value| > 0
  {
    var updateData := BuildUpdateData(u, hashPassword);
    if |updateData| == 0 {
      r := Failure(HttpError(400, "No hay datos para actualizar"));
    } else {
      r := Success(updateData);
    }
  }

  /** `eliminar_usuario`: an administrator may not delete their own account. */
  function DeleteGuard(usuarioId: string, currentUserId: string): (r: Option<HttpError>)
    ensures r.Some? <==> usuarioId == currentUserId
    ensures r.Some? ==> r.value.status == 400
  {
    if usuarioId == currentUserId then Some(HttpError(400, "No puedes eliminar tu propio usuario")) else None
  }

  // ---------------------------------------------------------------------------
  // Global statistics
  // ---------------------------------------------------------------------------

  /** A user row as the statistics read it; a missing `activo` is `None`. */
  datatype UserRow = UserRow(id: string, activo: Option<bool>)

  /** An analysis row: its creation time as ISO text. */
  datatype AnalysisRow = AnalysisRow(id: string, createdAt: string)

  /** The users whose `activo` is true. */
  function CountActive(users: seq<UserRow>): (n: nat)
    ensures n <= |users|
  {
    if users == [] then 0
    else CountActive(users[..|users| - 1]) + (if users[|users| - 1].activo == Some(true) then 1 else 0)
  }

  /** The analyses created on the day `day` (ISO date), by text prefix. */
  function CountOnDay(rows: seq<AnalysisRow>, day: string): (n: nat)
    ensures n <= |rows|
  {
    if rows == [] then 0
    else CountOnDay(rows[..|rows| - 1], day) + (if day <= rows[|rows| - 1].createdAt then 1 else 0)
  }

  /** The analyses created at or after `since`, by text order. */
  function CountSince(rows: seq<AnalysisRow>, since: string): (n: nat)
    ensures n <= |rows|
  {
    if rows == [] then 0
    else CountSince(rows[..|rows| - 1], since) + (if LexAtLeast(rows[|rows| - 1].createdAt, since) then 1 else 0)
  }

  datatype Stats = Stats(totalUsuarios: nat, usuariosActivos: nat, totalAnalisis: nat, analisisHoy: nat, analisisSemana: nat)

  /**
   * The counters of `estadisticas_globales`. Today's date and the date a week
   * ago come from the clock and are parameters.
   */
  function GlobalStats(users: seq<UserRow>, analyses: seq<AnalysisRow>, hoy: string, haceSemana: string): (s: Stats)
    ensures s.usuariosActivos <= s.totalUsuarios == |users|
    ensures s.analisisHoy <= s.totalAnalisis && s.analisisSemana <= s.totalAnalisis && s.totalAnalisis == |analyses|
  {
    Stats(|users|, CountActive(users), |analyses|, CountOnDay(analyses, hoy), CountSince(analyses, haceSemana))
  }

  /** Every analysis of today is also one of the last week, so today's count never exceeds the week's. */
  lemma {:induction false} TodayWithinWeek(rows: seq<AnalysisRow>, hoy: string, haceSemana: string)
    requires LexAtLeast(hoy, haceSemana)
    ensures CountOnDay(rows, hoy) <= CountSince(rows, haceSemana)
    decreases |rows|
  {
    if rows != [] {
      TodayWithinWeek(rows[..|rows| - 1], hoy, haceSemana);
      var createdAt := rows[|rows| - 1].createdAt;
      if hoy <= createdAt {
        PrefixIsAtMost(hoy, createdAt);
        LexAtLeastTransitive(createdAt, hoy, haceSemana);
      }
    }
  }

  // ---------------------------------------------------------------------------
  // Listing
  // ---------------------------------------------------------------------------

  /** `listar_analisis` asks for the rows `offset` to `offset + limit - 1`, both included. */
  function ListingRange(offset: int, limit: int): (r: (int, int))
    ensures r.0 == offset && r.1 - r.0 + 1 == limit
  {
    (offset, offset + limit - 1)
  }

  /** The positions of the listing, in order. */
  function Positions(offset: int, limit: nat): (ps: seq<int>)
    ensures |ps| == limit && forall i :: 0 <= i < limit ==> ps[i] == offset + i
  {
    if limit == 0 then [] else Positions(offset, limit - 1) + [offset + limit - 1]
  }

  /** The inclusive range holds exactly `limit` positions: a position is listed exactly when it lies in the range. */
  lemma ListingHoldsLimit(offset: int, limit: nat)
    ensures var (first, last) := ListingRange(offset, limit);
            |Positions(offset, limit)| == limit &&
            forall p :: p in Positions(offset, limit) <==> first <= p <= last
  {
    var ps := Positions(offset, limit);
    forall p | offset <= p <= offset + limit - 1
      ensures p in ps
    {
      assert ps[p - offset] == p;
    }
  }
}
