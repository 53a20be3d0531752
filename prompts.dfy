/**
 * What the analyzer hands to the language model (backend/app/gateway_analyzer.py,
 * `generate_ai_report` and `chat_with_data`): the snapshot flattened to text,
 * the tail of the chat history, the report template and the chat template,
 * and the placeholder substitution the prompt library applies to a template.
 */
module Prompts {
  import opened Wrappers
  import opened Strings
  import Gateway

  // ---------------------------------------------------------------------------
  // Flattening a snapshot
  // ---------------------------------------------------------------------------

  /** The two snapshot entries that describe the request rather than the gateway. */
  predicate IsMetadataKey(key: string) {
    key == "mac_address" || key == "timestamp"
  }

  /** One entry as the model reads it: the key in upper case, a colon, then the value on the next line. */
  function RenderEntry(entry: (string, string)): string {
    Upper(entry.0) + ":\n" + entry.1
  }

  /** The rendered entries of a snapshot, in order, leaving out the metadata entries. */
  function ReportEntries(d: Gateway.Snapshot): (r: seq<string>)
    ensures |r| <= |d|
  {
    if d == [] then []
    else
      var last := d[|d| - 1];
      ReportEntries(d[..|d| - 1]) + (if IsMetadataKey(last.0) then [] else [RenderEntry(last)])
  }

  /**
   * The `contenido` of both the report and the chat: the rendered entries
   * separated by blank lines. The two paths share this one definition.
   */
  function Contenido(d: Gateway.Snapshot): (r: string)
    ensures ReportEntries(d) == [] ==> r == ""
    ensures ReportEntries(d) != [] ==> ReportEntries(d)[0] <= r
  {
    Join(ReportEntries(d), "\n\n")
  }

  /** Flattening works entry by entry: the entries of a concatenation are the entries of each part. */
  lemma {:induction false} EntriesAppend(d1: Gateway.Snapshot, d2: Gateway.Snapshot)
    ensures ReportEntries(d1 + d2) == ReportEntries(d1) + ReportEntries(d2)
    decreases |d2|
  {
    if d2 == [] {
      assert d1 + d2 == d1;
    } else {
      var init := d2[..|d2| - 1];
      assert (d1 + d2)[..|d1 + d2| - 1] == d1 + init;
      EntriesAppend(d1, init);
    }
  }

  /**
   * An entry is rendered exactly when its key is not a metadata key, and
   * every rendered entry comes from such an entry of the snapshot.
   */
  lemma {:induction false} EntriesAreTheKeptOnes(d: Gateway.Snapshot)
    ensures forall i :: 0 <= i < |d| && !IsMetadataKey(d[i].0) ==> RenderEntry(d[i]) in ReportEntries(d)
    ensures forall e :: e in ReportEntries(d) ==> exists i :: 0 <= i < |d| && !IsMetadataKey(d[i].0) && e == RenderEntry(d[i])
  {
    if d != [] {
      var init := d[..|d| - 1];
      EntriesAreTheKeptOnes(init);
      forall i | 0 <= i < |d| && !IsMetadataKey(d[i].0)
        ensures RenderEntry(d[i]) in ReportEntries(d)
      {
        if i < |init| {
          assert d[i] == init[i];
        }
      }
      forall e | e in ReportEntries(d)
        ensures exists i :: 0 <= i < |d| && !IsMetadataKey(d[i].0) && e == RenderEntry(d[i])
      {
        if e in ReportEntries(init) {
          var i :| 0 <= i < |init| && !IsMetadataKey(init[i].0) && e == RenderEntry(init[i]);
          assert d[i] == init[i];
        } else {
          assert e == RenderEntry(d[|d| - 1]);
        }
      }
    }
  }

  /** A snapshot that starts with the two metadata entries flattens to the rendering of every later entry. */
  lemma DropsMetadata(d: Gateway.Snapshot)
    requires |d| >= 2 && IsMetadataKey(d[0].0) && IsMetadataKey(d[1].0)
    requires forall i :: 2 <= i < |d| ==> !IsMetadataKey(d[i].0)
    ensures |ReportEntries(d)| == |d| - 2
    ensures forall i :: 0 <= i < |d| - 2 ==> ReportEntries(d)[i] == RenderEntry(d[2 + i])
  {
    var meta := d[..2];
    var rest := d[2..];
    assert d == meta + rest;
    EntriesAppend(meta, rest);
    MetadataVanishes(meta);
    KeptPrefix(rest, |rest|);
    assert rest[..|rest|] == rest;
  }

  lemma MetadataVanishes(meta: Gateway.Snapshot)
    requires |meta| == 2 && IsMetadataKey(meta[0].0) && IsMetadataKey(meta[1].0)
    ensures ReportEntries(meta) == []
  {
    assert meta[..1][..0] == [];
    assert ReportEntries(meta[..1]) == [];
  }

  /** A snapshot flattens to its eight reports, each under its category's key in upper case, in category order. */
  lemma SnapshotFlattens(mac: string, timestamp: string, reports: seq<string>)
    requires |reports| == |Gateway.Categories|
    ensures var entries := ReportEntries(Gateway.SnapshotFrom(mac, timestamp, reports));
            |entries| == 8 &&
            forall i :: 0 <= i < 8 ==> entries[i] == Upper(Gateway.Key(Gateway.Categories[i])) + ":\n" + reports[i]
  {
    var d := Gateway.SnapshotFrom(mac, timestamp, reports);
    forall i | 2 <= i < |d|
      ensures !IsMetadataKey(d[i].0)
    {
      Gateway.KeysDistinct(Gateway.Categories[i - 2], Gateway.Categories[i - 2]);
    }
    DropsMetadata(d);
  }

  /** A prefix whose keys are all category keys renders entry by entry. */
  lemma {:induction false} KeptPrefix(d: Gateway.Snapshot, n: nat)
    requires n <= |d|
    requires forall i :: 0 <= i < n ==> !IsMetadataKey(d[i].0)
    ensures |ReportEntries(d[..n])| == n
    ensures forall i :: 0 <= i < n ==> ReportEntries(d[..n])[i] == RenderEntry(d[i])
  {
    if n > 0 {
      KeptPrefix(d, n - 1);
      assert d[..n][..n - 1] == d[..n - 1];
    }
  }

  // ---------------------------------------------------------------------------
  // The chat history
  // ---------------------------------------------------------------------------

  const HistoryHeader: string := "\n\n--- HISTORIAL DE CONVERSACIÓN ---\n"

  /** Where a Python slice starting at `start` begins in a sequence of length `len`. */
  function SliceStart(start: int, len: nat): (k: nat)
    ensures k <= len
  {
    if start < 0 then (if len + start < 0 then 0 else len + start)
    else if start > len then len
    else start
  }

  /**
   * `lines[-max:]`: always a suffix of the lines; with a positive limit the
   * last `max` lines, or all of them when there are fewer; with a limit of 0
   * every line, since `-0` is the start of the list.
   */
  function TailSlice(lines: seq<string>, max: int): (r: seq<string>)
    ensures |r| <= |lines| && lines == lines[..|lines| - |r|] + r
    ensures max > 0 ==> |r| == (if |lines| < max then |lines| else max)
    ensures max == 0 ==> r == lines
  {
    lines[SliceStart(-max, |lines|)..]
  }

  /** A negative limit drops the first `-max` lines instead of keeping the last ones. */
  lemma TailSliceNegativeDropsFirst(lines: seq<string>, max: int)
    requires max < 0
    ensures TailSlice(lines, max) == if |lines| < -max then [] else lines[-max..]
  {
  }

  /**
   * The history part of the chat prompt: empty exactly when there is no
   * history, otherwise the header followed by the kept lines.
   */
  function HistoryText(historial: Option<seq<string>>, max: int): (r: string)
    ensures r == "" <==> historial.None? || historial.value == []
    ensures historial.Some? && historial.value != [] ==> HistoryHeader <= r
  {
    if historial.None? || |historial.value| == 0 then ""
    else HistoryHeader + Join(TailSlice(historial.value, max), "\n")
  }

  // ---------------------------------------------------------------------------
  // Templates and their substitution
  // ---------------------------------------------------------------------------

  /** The `contenido` placeholder of the default report template. */
  const ContenidoField: string := "{contenido}"

  /** The report template used when none is given: instructions, then the placeholder on its own line at the end. */
  const DefaultPrompt: string := DefaultInstructions + ContenidoField + "\n"

  const DefaultInstructions: string := @"
# ROL Y OBJETIVO
Actúa como un ingeniero de redes senior y experto en soporte técnico. Tu misión es traducir los siguientes datos técnicos crudos en un informe ejecutivo para un agente de call center que necesita entender rápidamente la situación de un cliente y darle soluciones claras.

# REGLAS CRÍTICAS DE FORMATO Y TONO
- **Formato Estricto**: USA ÚNICAMENTE TEXTO PLANO. Está ABSOLUTAMENTE PROHIBIDO el uso de markdown.
- **Títulos**: Usa MAYÚSCULAS sostenidas para los títulos de las secciones principales.
- **Iconografía Simple**: Solo puedes usar estos emojis para indicar estado:
  - ✅: Bueno, sin problemas detectados.
  - ⚠️: Advertencia, algo podría mejorar o requiere monitoreo.
  - ❌: Problema crítico, requiere acción inmediata.
- **Claridad y Brevedad**: Usa líneas cortas, párrafos breves y separa las secciones con una línea en blanco.
- **Lenguaje Simple**: Traduce toda la jerga técnica.
- **Datos Faltantes**: Si una sección de datos no está disponible, indícalo explícitamente.

# ESTRUCTURA OBLIGATORIA DEL INFORME
INFORME DE DIAGNÓSTICO - GATEWAY RESIDENCIAL

ESTADO GENERAL DEL SERVICIO
[Usa ✅, ⚠️, o ❌. Describe en una o dos frases el estado general]

CALIDAD DE SEÑAL ÓPTICA
- Estado de la Conexión: [✅, ⚠️, ❌]
- Potencia Recibida (Rx): [Valor dBm y su interpretación]
- Potencia Transmitida (Tx): [Valor dBm y su interpretación]

DISPOSITIVOS CONECTADOS
[Lista de dispositivos con señal y velocidad]

CONFIGURACIÓN WIFI ACTUAL
- Red 2.4 GHz: [SSID, Canal, Ancho, Potencia]
- Red 5 GHz: [SSID, Canal, Ancho, Potencia]

ANÁLISIS DE INTERFERENCIA
[Identificar redes vecinas problemáticas]

HISTORIAL DE EVENTOS RECIENTES
[Resumir reinicios y cambios de canal]

ESTADO DE PUERTOS FÍSICOS (LAN)
[Estado de cada puerto LAN]

RECOMENDACIONES INMEDIATAS
[Lista de acciones claras y priorizadas]

PROBLEMAS DETECTADOS Y SOLUCIONES
- PROBLEMA: [Descripción]
  - SOLUCIÓN: [Acción específica]

--- DATOS TÉCNICOS RAW ---
"

  /**
   * `prompt_template or DEFAULT_PROMPT`: the template used is never empty;
   * a given non-empty template is used as it is, and a missing or empty one
   * falls back to the default.
   */
  function ReportTemplate(promptTemplate: Option<string>): (r: string)
    ensures r != ""
    ensures promptTemplate.Some? && promptTemplate.value != "" ==> r == promptTemplate.value
    ensures promptTemplate.None? || promptTemplate.value == "" ==> r == DefaultPrompt
  {
    assert |DefaultPrompt| >= |ContenidoField|;
    if promptTemplate.None? || promptTemplate.value == "" then DefaultPrompt else promptTemplate.value
  }

  // ---------------------------------------------------------------------------
  // Placeholder substitution
  // ---------------------------------------------------------------------------

  /** Why a template cannot be filled in. */
  datatype FormatError = SingleOpenBrace | SingleCloseBrace | MissingVariable(field: string)

  function Prefixed(p: string, r: Result<string, FormatError>): Result<string, FormatError> {
    if r.Success? then Success(p + r.value) else r
  }

  lemma PrefixedNothing(r: Result<string, FormatError>)
    ensures Prefixed("", r) == r
  {
    if r.Success? {
      assert "" + r.value == r.value;
    }
  }

  lemma PrefixedTwice(p: string, q: string, r: Result<string, FormatError>)
    ensures Prefixed(p, Prefixed(q, r)) == Prefixed(p + q, r)
  {
    if r.Success? {
      assert p + (q + r.value) == p + q + r.value;
    }
  }

  /** The first closing brace at or after `from`. */
  function CloseBrace(t: string, from: nat): (k: nat)
    requires from <= |t| && '}' in t[from..]
    ensures from <= k < |t| && t[k] == '}' && '}' !in t[from..k]
    decreases |t| - from
  {
    if t[from] == '}' then from
    else
      assert t[from..] == [t[from]] + t[from + 1..];
      CloseBrace(t, from + 1)
  }

  /**
   * Python's `str.format` with one keyword argument, as the prompt library
   * fills a template: `{{` and `}}` stand for single braces, `{name}` for the
   * value, and any other field or unmatched brace is an error.
   */
  function Format(t: string, name: string, value: string): (r: Result<string, FormatError>)
    ensures r.Failure? && r.error.MissingVariable? ==> r.error.field != name
    decreases |t|
  {
    if t == [] then Success("")
    else if t[0] == '{' then
      if |t| >= 2 && t[1] == '{' then Prefixed("{", Format(t[2..], name, value))
      else if '}' !in t[1..] then Failure(SingleOpenBrace)
      else
        var k := CloseBrace(t, 1);
        if t[1..k] == name then Prefixed(value, Format(t[k + 1..], name, value))
        else Failure(MissingVariable(t[1..k]))
    else if t[0] == '}' then
      if |t| >= 2 && t[1] == '}' then Prefixed("}", Format(t[2..], name, value))
      else Failure(SingleCloseBrace)
    else
      assert t == [t[0]] + t[1..];
      Prefixed([t[0]], Format(t[1..], name, value))
  }

  predicate BraceFree(s: string) {
    '{' !in s && '}' !in s
  }

  /** Text without braces comes through substitution unchanged. */
  lemma {:induction false} FormatPlain(s: string, rest: string, name: string, value: string)
    requires BraceFree(s)
    ensures Format(s + rest, name, value) == Prefixed(s, Format(rest, name, value))
    decreases |s|
  {
    if s == [] {
      assert s + rest == rest;
      PrefixedNothing(Format(rest, name, value));
    } else {
      var t := s + rest;
      assert t[0] == s[0] && t[1..] == s[1..] + rest;
      assert '{' !in s[1..] && '}' !in s[1..];
      FormatPlain(s[1..], rest, name, value);
      assert Format(t, name, value) == Prefixed([s[0]], Format(s[1..] + rest, name, value));
      PrefixedTwice([s[0]], s[1..], Format(rest, name, value));
      assert [s[0]] + s[1..] == s;
    }
  }

  /** A template without braces fills in to itself. */
  lemma FormatBraceFree(t: string, name: string, value: string)
    requires BraceFree(t)
    ensures Format(t, name, value) == Success(t)
  {
    FormatPlain(t, "", name, value);
    assert t + "" == t;
  }

  /** A field naming the variable is replaced by its value. */
  lemma FormatField(name: string, value: string, rest: string)
    requires '}' !in name && (name == [] || name[0] != '{')
    ensures Format("{" + name + "}" + rest, name, value) == Prefixed(value, Format(rest, name, value))
  {
    var t := "{" + name + "}" + rest;
    assert t[1..][|name|] == '}';
    assert t[1..|name| + 1] == name;
    assert t[|name| + 2..] == rest;
  }

  /** One character escaped: a brace doubled, anything else as it is. */
  function EscapedChar(c: char): string {
    if c == '{' then "{{" else if c == '}' then "}}" else [c]
  }

  /** Each brace doubled, so that substitution reads it as a literal brace. */
  function EscapeBraces(s: string): string {
    if s == [] then ""
    else EscapedChar(s[0]) + EscapeBraces(s[1..])
  }

  /** Substitution turns one escaped character back into the character. */
  lemma FormatEscapedChar(c: char, tail: string, name: string, value: string)
    ensures Format(EscapedChar(c) + tail, name, value) == Prefixed([c], Format(tail, name, value))
  {
    var t := EscapedChar(c) + tail;
    if c == '{' || c == '}' {
      assert t[0] == t[1] == c && t[2..] == tail;
    } else {
      assert t[0] == c && t[1..] == tail;
    }
  }

  /** Substitution turns escaped text back into the text itself, whatever braces it holds. */
  lemma {:induction false} FormatEscaped(s: string, rest: string, name: string, value: string)
    ensures Format(EscapeBraces(s) + rest, name, value) == Prefixed(s, Format(rest, name, value))
    decreases |s|
  {
    if s == [] {
      assert EscapeBraces(s) + rest == rest;
      PrefixedNothing(Format(rest, name, value));
    } else {
      var tail := EscapeBraces(s[1..]) + rest;
      FormatEscaped(s[1..], rest, name, value);
      assert EscapeBraces(s) + rest == EscapedChar(s[0]) + tail;
      FormatEscapedChar(s[0], tail, name, value);
      PrefixedTwice([s[0]], s[1..], Format(rest, name, value));
      assert [s[0]] + s[1..] == s;
    }
  }

  // ---------------------------------------------------------------------------
  // The chat prompt
  // ---------------------------------------------------------------------------

  // The fixed text of the chat template, written in short pieces so that
  // each piece can be checked for braces on its own.
  const ChatIntro: string :=
    "\nEres un asistente experto " +
    "en análisis de redes WiFi. \n" +
    "Responde a la siguiente " +
    "pregunta basándote " +
    "ÚNICAMENTE en los datos " +
    "técnicos proporcionados.\n\n"
  const DataHeading: string :=
    "\n\n--- DATOS TÉCNICOS DEL " +
    "GATEWAY ---\n"
  const QuestionHeading: string :=
    "\n\n--- PREGUNTA DEL USUARIO " +
    "---\n"
  const ChatClosing: string :=
    "\n\nProporciona una respuesta " +
    "clara, técnica pero " +
    "entendible, basada SOLO en " +
    "los datos disponibles.\nSi " +
    "la información no está " +
    "disponible en los datos, " +
    "indícalo claramente.\n"
  const PreguntaField: string := "{pregunta}"

  /** The chat template as `chat_with_data` builds it: history and content pasted in as they are. */
  function ChatTemplateAsWritten(historialStr: string, contenido: string): string {
    ChatIntro + historialStr + DataHeading + contenido + QuestionHeading + PreguntaField + ChatClosing
  }

  /** The prompt the chat is meant to send: history, content and question in their places. */
  function IntendedChatPrompt(historialStr: string, contenido: string, pregunta: string): string {
    ChatIntro + historialStr + DataHeading + contenido + QuestionHeading + pregunta + ChatClosing
  }

  /** The chat template with the braces of the history and the content escaped. */
  function ChatTemplate(historialStr: string, contenido: string): string {
    ChatIntro + EscapeBraces(historialStr) + DataHeading + EscapeBraces(contenido) + QuestionHeading + PreguntaField + ChatClosing
  }

  lemma BraceFreeAppend(a: string, b: string)
    requires BraceFree(a) && BraceFree(b)
    ensures BraceFree(a + b)
  {
  }

  lemma ChatIntroIsBraceFree()
    ensures BraceFree(ChatIntro)
  {
    var chatIntro0 := "\nEres un asistente experto ";
    assert BraceFree(chatIntro0);
    var chatIntro1 := "en análisis de redes WiFi. \n";
    assert BraceFree(chatIntro1);
    BraceFreeAppend(chatIntro0, chatIntro1);
    var chatIntro2 := "Responde a la siguiente ";
    assert BraceFree(chatIntro2);
    BraceFreeAppend(chatIntro0 + chatIntro1, chatIntro2);
    var chatIntro3 := "pregunta basándote ";
    assert BraceFree(chatIntro3);
    BraceFreeAppend(chatIntro0 + chatIntro1 + chatIntro2, chatIntro3);
    var chatIntro4 := "ÚNICAMENTE en los datos ";
    assert BraceFree(chatIntro4);
    BraceFreeAppend(chatIntro0 + chatIntro1 + chatIntro2 + chatIntro3, chatIntro4);
    var chatIntro5 := "técnicos proporcionados.\n\n";
    assert BraceFree(chatIntro5);
    BraceFreeAppend(chatIntro0 + chatIntro1 + chatIntro2 + chatIntro3 + chatIntro4, chatIntro5);
  }

  lemma DataHeadingIsBraceFree()
    ensures BraceFree(DataHeading)
  {
    var dataHeading0 := "\n\n--- DATOS TÉCNICOS DEL ";
    assert BraceFree(dataHeading0);
    var dataHeading1 := "GATEWAY ---\n";
    assert BraceFree(dataHeading1);
    BraceFreeAppend(dataHeading0, dataHeading1);
  }

  lemma QuestionHeadingIsBraceFree()
    ensures BraceFree(QuestionHeading)
  {
    var questionHeading0 := "\n\n--- PREGUNTA DEL USUARIO ";
    assert BraceFree(questionHeading0);
    var questionHeading1 := "---\n";
    assert BraceFree(questionHeading1);
    BraceFreeAppend(questionHeading0, questionHeading1);
  }

  lemma ChatClosingIsBraceFree()
    ensures BraceFree(ChatClosing)
  {
    var chatClosing0 := "\n\nProporciona una respuesta ";
    assert BraceFree(chatClosing0);
    var chatClosing1 := "clara, técnica pero ";
    assert BraceFree(chatClosing1);
    BraceFreeAppend(chatClosing0, chatClosing1);
    var chatClosing2 := "entendible, basada SOLO en ";
    assert BraceFree(chatClosing2);
    BraceFreeAppend(chatClosing0 + chatClosing1, chatClosing2);
    var chatClosing3 := "los datos disponibles.\nSi ";
    assert BraceFree(chatClosing3);
    BraceFreeAppend(chatClosing0 + chatClosing1 + chatClosing2, chatClosing3);
    var chatClosing4 := "la información no está ";
    assert BraceFree(chatClosing4);
    BraceFreeAppend(chatClosing0 + chatClosing1 + chatClosing2 + chatClosing3, chatClosing4);
    var chatClosing5 := "disponible en los datos, ";
    assert BraceFree(chatClosing5);
    BraceFreeAppend(chatClosing0 + chatClosing1 + chatClosing2 + chatClosing3 + chatClosing4, chatClosing5);
    var chatClosing6 := "indícalo claramente.\n";
    assert BraceFree(chatClosing6);
    BraceFreeAppend(chatClosing0 + chatClosing1 + chatClosing2 + chatClosing3 + chatClosing4 + chatClosing5, chatClosing6);
  }

  /** The escaped template always fills in, and gives the intended prompt. */
  lemma ChatTemplateFormats(historialStr: string, contenido: string, pregunta: string)
    ensures Format(ChatTemplate(historialStr, contenido), "pregunta", pregunta) ==
              Success(IntendedChatPrompt(historialStr, contenido, pregunta))
  {
    ChatIntroIsBraceFree();
    DataHeadingIsBraceFree();
    QuestionHeadingIsBraceFree();
    ChatClosingIsBraceFree();
    FillsIn(ChatIntro, historialStr, DataHeading, contenido, QuestionHeading, ChatClosing, pregunta);
  }

  /** Brace-free text around escaped parts and one `{pregunta}` field fills in to the parts and the question. */
  lemma FillsIn(intro: string, h: string, data: string, c: string, question: string, closing: string, q: string)
    requires BraceFree(intro) && BraceFree(data) && BraceFree(question) && BraceFree(closing)
    ensures Format(intro + EscapeBraces(h) + data + EscapeBraces(c) + question + PreguntaField + closing, "pregunta", q) ==
              Success(intro + h + data + c + question + q + closing)
  {
    var tail := question + (PreguntaField + closing);
    FillsQuestion(question, closing, q);
    var t2 := data + (EscapeBraces(c) + tail);
    EscapedThen(c, tail, "pregunta", q, question + (q + closing));
    PlainThen(data, EscapeBraces(c) + tail, "pregunta", q, c + (question + (q + closing)));
    var t0 := intro + (EscapeBraces(h) + t2);
    EscapedThen(h, t2, "pregunta", q, data + (c + (question + (q + closing))));
    PlainThen(intro, EscapeBraces(h) + t2, "pregunta", q, h + (data + (c + (question + (q + closing)))));
    RightNested(intro, EscapeBraces(h), data, EscapeBraces(c), question, PreguntaField, closing);
    RightNested(intro, h, data, c, question, q, closing);
  }

  lemma RightNested(a: string, b: string, c: string, d: string, e: string, f: string, g: string)
    ensures a + b + c + d + e + f + g == a + (b + (c + (d + (e + (f + g)))))
  {
  }

  lemma FillsQuestion(question: string, closing: string, q: string)
    requires BraceFree(question) && BraceFree(closing)
    ensures Format(question + (PreguntaField + closing), "pregunta", q) == Success(question + (q + closing))
  {
    PlainThen(closing, "", "pregunta", q, "");
    assert closing + "" == closing;
    assert PreguntaField == "{" + "pregunta" + "}";
    FormatField("pregunta", q, closing);
    PlainThen(question, PreguntaField + closing, "pregunta", q, q + closing);
  }

  lemma PlainThen(s: string, rest: string, name: string, value: string, v: string)
    requires BraceFree(s) && Format(rest, name, value) == Success(v)
    ensures Format(s + rest, name, value) == Success(s + v)
  {
    FormatPlain(s, rest, name, value);
  }

  lemma EscapedThen(s: string, rest: string, name: string, value: string, v: string)
    requires Format(rest, name, value) == Success(v)
    ensures Format(EscapeBraces(s) + rest, name, value) == Success(s + v)
  {
    FormatEscaped(s, rest, name, value);
  }



  /** A field other than the variable stops substitution with an error naming it. */
  lemma FieldMismatch(x: string, rest: string, name: string, value: string)
    requires '}' !in x && (x == [] || x[0] != '{') && x != name
    ensures Format("{" + x + "}" + rest, name, value) == Failure(MissingVariable(x))
  {
    var t := "{" + x + "}" + rest;
    assert t[1..][|x|] == '}';
    assert t[1..|x| + 1] == x;
  }

  /**
   * The template as written breaks as soon as the content holds a JSON
   * object: its braces are read as a field, and substitution fails.
   */
  lemma ChatAsWrittenFailsOnObject(historialStr: string, before: string, x: string, after: string, pregunta: string)
    requires BraceFree(historialStr) && BraceFree(before)
    requires '}' !in x && (x == [] || x[0] != '{') && x != "pregunta"
    ensures Format(ChatTemplateAsWritten(historialStr, before + ("{" + x + "}") + after), "pregunta", pregunta) ==
              Failure(MissingVariable(x))
  {
    ChatIntroIsBraceFree();
    DataHeadingIsBraceFree();
    var prefix := ChatIntro + historialStr + DataHeading + before;
    BraceFreeAppend(ChatIntro, historialStr);
    BraceFreeAppend(ChatIntro + historialStr, DataHeading);
    BraceFreeAppend(ChatIntro + historialStr + DataHeading, before);
    var rest := after + QuestionHeading + PreguntaField + ChatClosing;
    AsWrittenSplit(historialStr, before, x, after);
    FieldMismatch(x, rest, "pregunta", pregunta);
    FormatPlain(prefix, "{" + x + "}" + rest, "pregunta", pregunta);
  }

  lemma AsWrittenSplit(historialStr: string, before: string, x: string, after: string)
    ensures ChatTemplateAsWritten(historialStr, before + ("{" + x + "}") + after) ==
              (ChatIntro + historialStr + DataHeading + before) + ("{" + x + "}" + (after + QuestionHeading + PreguntaField + ChatClosing))
  {
    Regroup(ChatIntro, historialStr, DataHeading, before, "{" + x + "}", after, QuestionHeading, PreguntaField, ChatClosing);
  }

  lemma Regroup(i: string, h: string, d: string, b: string, f: string, a: string, q: string, p: string, c: string)
    ensures i + h + d + (b + f + a) + q + p + c == (i + h + d + b) + (f + (a + q + p + c))
  {
  }

  /** Escaping text without braces changes nothing. */
  lemma {:induction false} EscapeBraceFree(s: string)
    requires BraceFree(s)
    ensures EscapeBraces(s) == s
  {
    if s != [] {
      assert '{' !in s[1..] && '}' !in s[1..];
      EscapeBraceFree(s[1..]);
      assert [s[0]] + s[1..] == s;
    }
  }

  /**
   * `chat_with_data` up to the model call: the chat prompt as written. It
   * comes out as intended as long as neither the history nor the content
   * holds a brace.
   */
  function ChatPromptAsWritten(pregunta: string, datos: Gateway.Snapshot, historial: Option<seq<string>>, maxChatHistory: int): (r: Result<string, FormatError>)
    ensures BraceFree(HistoryText(historial, maxChatHistory)) && BraceFree(Contenido(datos)) ==>
              r == Success(IntendedChatPrompt(HistoryText(historial, maxChatHistory), Contenido(datos), pregunta))
  {
    var h := HistoryText(historial, maxChatHistory);
    var c := Contenido(datos);
    if BraceFree(h) && BraceFree(c) then
      EscapeBraceFree(h);
      EscapeBraceFree(c);
      ChatTemplateFormats(h, c, pregunta);
      assert ChatTemplateAsWritten(h, c) == ChatTemplate(h, c);
      Format(ChatTemplateAsWritten(h, c), "pregunta", pregunta)
    else
      Format(ChatTemplateAsWritten(h, c), "pregunta", pregunta)
  }

  /**
   * As written, a chat about a snapshot whose content holds a JSON object
   * fails: the object's braces are read as a field of the template.
   */
  lemma ChatPromptAsWrittenFails(pregunta: string, datos: Gateway.Snapshot, historial: Option<seq<string>>, maxChatHistory: int,
                                 before: string, x: string, after: string)
    requires BraceFree(HistoryText(historial, maxChatHistory))
    requires Contenido(datos) == before + ("{" + x + "}") + after && BraceFree(before)
    requires '}' !in x && (x == [] || x[0] != '{') && x != "pregunta"
    ensures ChatPromptAsWritten(pregunta, datos, historial, maxChatHistory) == Failure(MissingVariable(x))
  {
    ChatAsWrittenFailsOnObject(HistoryText(historial, maxChatHistory), before, x, after, pregunta);
  }

  /**
   * `chat_with_data` up to the model call, with the braces of history and
   * content escaped: it always fills in, to the question, the history tail
   * and the flattened snapshot, each in its place.
   */
  function ChatPrompt(pregunta: string, datos: Gateway.Snapshot, historial: Option<seq<string>>, maxChatHistory: int): (r: Result<string, FormatError>)
    ensures r == Success(IntendedChatPrompt(HistoryText(historial, maxChatHistory), Contenido(datos), pregunta))
  {
    ChatTemplateFormats(HistoryText(historial, maxChatHistory), Contenido(datos), pregunta);
    Format(ChatTemplate(HistoryText(historial, maxChatHistory), Contenido(datos)), "pregunta", pregunta)
  }
}
