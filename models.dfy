/**
 * Request models of the API (backend/app/models.py): the MAC address
 * validator of an analysis request and the length and pattern constraints
 * the request models declare on their fields.
 */
module Models {
  import opened Wrappers
  import opened Strings

  // ---------------------------------------------------------------------------
  // MAC address canonicalisation (AnalisisGatewayRequest.validate_mac)
  // ---------------------------------------------------------------------------

  const InvalidMacMessage: string := "MAC address inválida"

  /** `v.replace(':', '').replace('-', '').replace('.', '')` */
  function StripSeparators(v: string): (r: string)
    ensures ':' !in r && '-' !in r && '.' !in r
    ensures forall x :: x in r ==> x in v
  {
    RemoveChar(RemoveChar(RemoveChar(v, ':'), '-'), '.')
  }

  /**
   * The text the validator's regular expression is matched against:
   * separators removed, upper-cased. Every other character of the input
   * (but U+FB00) is there in its upper-case form.
   */
  function Normalised(v: string): (n: string)
    ensures forall c :: c in v && c !in ":-." && c != LigatureFF ==> UpperChar(c)[0] in n
  {
    NormalisedKeeps(v);
    Upper(StripSeparators(v))
  }

  lemma NormalisedKeeps(v: string)
    ensures forall c :: c in v && c !in ":-." && c != LigatureFF ==> UpperChar(c)[0] in Upper(StripSeparators(v))
  {
    forall c | c in v && c !in ":-." && c != LigatureFF
      ensures UpperChar(c)[0] in Upper(StripSeparators(v))
    {
      ContainsKeptByStrip(v, c);
      UpperKeeps(StripSeparators(v), c);
    }
  }

  predicate IsHexDigit(c: char) {
    ('0' <= c <= '9') || ('A' <= c <= 'F')
  }

  /** What `[0-9A-F]{12}` matches in full. */
  predicate IsTwelveHexDigits(n: string) {
    |n| == 12 && forall i :: 0 <= i < 12 ==> IsHexDigit(n[i])
  }

  /** The canonical form: six groups of two upper-case hex digits joined by ':'. */
  predicate IsCanonicalMac(m: string) {
    |m| == 17 && forall k :: 0 <= k < 17 ==> if k % 3 == 2 then m[k] == ':' else IsHexDigit(m[k])
  }

  /**
   * `':'.join([v[i:i+2] for i in range(0, 12, 2)])`: position `k` of the result
   * holds ':' when `k % 3 == 2`, and otherwise digit `k - k / 3` of the input.
   */
  function GroupPairs(n: string): (mac: string)
    requires |n| == 12
    ensures |mac| == 17
    ensures forall k :: 0 <= k < 17 ==> mac[k] == if k % 3 == 2 then ':' else n[k - k / 3]
  {
    n[0..2] + ":" + n[2..4] + ":" + n[4..6] + ":" + n[6..8] + ":" + n[8..10] + ":" + n[10..12]
  }

  /**
   * `validate_mac`, with the regular expression read as "exactly twelve hex
   * digits". Accepted input comes back in canonical form, and deleting its
   * colons gives back the separator-free, upper-cased input.
   */
  function ValidateMac(v: string): (r: Result<string, string>)
    ensures r.Success? <==> IsTwelveHexDigits(Normalised(v))
    ensures r.Success? ==> IsCanonicalMac(r.value) && RemoveChar(r.value, ':') == Normalised(v)
    ensures r.Failure? ==> r.error == InvalidMacMessage
  {
    var n := Normalised(v);
    if IsTwelveHexDigits(n) then
      UngroupPairs(n);
      Success(GroupPairs(n))
    else Failure(InvalidMacMessage)
  }

  /** Deleting the colons of the canonical form gives back the twelve digits. */
  lemma UngroupPairs(n: string)
    requires IsTwelveHexDigits(n)
    ensures IsCanonicalMac(GroupPairs(n))
    ensures RemoveChar(GroupPairs(n), ':') == n
  {
    GroupPairsCanonical(n);
    assert ':' !in n by {
      assert forall i :: 0 <= i < |n| ==> IsHexDigit(n[i]);
    }
    assert GroupPairs(n) == Separated(n, ':');
    Unseparate(n, ':');
  }

  /** Six pairs of `m` with `sep` between them, as a user may type a MAC address. */
  function Separated(m: string, sep: char): (r: string)
    requires |m| == 12
  {
    m[0..2] + [sep] + (m[2..4] + [sep] + (m[4..6] + [sep] + (m[6..8] + [sep] + (m[8..10] + [sep] + m[10..12]))))
  }

  /** Deleting the separator from `Separated(m, sep)` gives back `m`. */
  lemma Unseparate(m: string, sep: char)
    requires |m| == 12 && sep !in m
    ensures RemoveChar(Separated(m, sep), sep) == m
  {
    var t5 := m[10..12];
    var t4 := m[8..10] + [sep] + t5;
    var t3 := m[6..8] + [sep] + t4;
    var t2 := m[4..6] + [sep] + t3;
    var t1 := m[2..4] + [sep] + t2;
    assert Separated(m, sep) == m[0..2] + [sep] + t1;
    PairLacks(m, 10, sep);
    RemoveAbsent(t5, sep);
    PairLacks(m, 8, sep);
    RemoveBefore(m[8..10], sep, t5);
    PairLacks(m, 6, sep);
    RemoveBefore(m[6..8], sep, t4);
    PairLacks(m, 4, sep);
    RemoveBefore(m[4..6], sep, t3);
    PairLacks(m, 2, sep);
    RemoveBefore(m[2..4], sep, t2);
    PairLacks(m, 0, sep);
    RemoveBefore(m[0..2], sep, t1);
    assert m[0..2] + (m[2..4] + (m[4..6] + (m[6..8] + (m[8..10] + m[10..12])))) == m;
  }

  /** A character that is neither the separator nor in `m` is not in `Separated(m, sep)`. */
  lemma SeparatedLacks(m: string, sep: char, c: char)
    requires |m| == 12 && c !in m && c != sep
    ensures c !in Separated(m, sep)
  {
    PairLacks(m, 0, c);
    PairLacks(m, 2, c);
    PairLacks(m, 4, c);
    PairLacks(m, 6, c);
    PairLacks(m, 8, c);
    PairLacks(m, 10, c);
  }

  lemma PairLacks(m: string, i: nat, c: char)
    requires i + 2 <= |m| && c !in m
    ensures c !in m[i..i + 2]
  {
    assert m[i..i + 2] == [m[i], m[i + 1]];
  }

  lemma GroupPairsCanonical(n: string)
    requires IsTwelveHexDigits(n)
    ensures IsCanonicalMac(GroupPairs(n))
  {
    var m := GroupPairs(n);
    forall k | 0 <= k < 17 && k % 3 != 2 ensures IsHexDigit(m[k]) {
      assert 0 <= k - k / 3 < 12;
    }
  }

  /** Removing the separator from `p + [sep] + rest`, where `p` lacks it, keeps `p` and drops the separator. */
  lemma RemoveBefore(p: string, sep: char, rest: string)
    requires sep !in p
    ensures RemoveChar(p + [sep] + rest, sep) == p + RemoveChar(rest, sep)
  {
    var tail := [sep] + rest;
    assert p + [sep] + rest == p + tail;
    RemoveAppend(p, tail, sep);
    RemoveAbsent(p, sep);
    assert tail[0] == sep && tail[1..] == rest;
    assert RemoveChar(tail, sep) == RemoveChar(rest, sep);
  }

  /** The twelve digits of a canonical MAC, read off the non-colon positions. */
  function Digits(m: string): (n: string)
    requires IsCanonicalMac(m)
    ensures IsTwelveHexDigits(n) && GroupPairs(n) == m
  {
    var n := seq(12, i requires 0 <= i < 12 => m[i + i / 2]);
    assert forall k :: 0 <= k < 17 && k % 3 != 2 ==> (k - k / 3) + (k - k / 3) / 2 == k;
    n
  }

  /** A canonical MAC address is accepted as it is. */
  lemma CanonicalIsFixedPoint(m: string)
    requires IsCanonicalMac(m)
    ensures ValidateMac(m) == Success(m)
  {
    var n := Digits(m);
    UngroupPairs(n);
    assert RemoveChar(m, ':') == n;
    assert '-' !in n && '.' !in n by {
      assert forall i :: 0 <= i < |n| ==> IsHexDigit(n[i]);
    }
    RemoveAbsent(n, '-');
    RemoveAbsent(n, '.');
    assert StripSeparators(m) == n;
    UpperFixed(n);
  }

  /** Validating twice is validating once: an accepted value passes again unchanged. */
  lemma ValidateMacIdempotent(v: string)
    requires ValidateMac(v).Success?
    ensures ValidateMac(ValidateMac(v).value) == ValidateMac(v)
  {
    CanonicalIsFixedPoint(ValidateMac(v).value);
  }

  predicate IsHexDigitAnyCase(c: char) {
    IsHexDigit(c) || ('a' <= c <= 'f')
  }

  /**
   * Twelve hex digits in any mixture of case, in pairs separated by ':', '-'
   * or '.', are accepted as the canonical form of the upper-cased digits:
   * `aa-bb-cc-dd-ee-ff` becomes `AA:BB:CC:DD:EE:FF`.
   */
  lemma SeparatorAndCaseIgnored(m: string, sep: char)
    requires |m| == 12 && forall i :: 0 <= i < 12 ==> IsHexDigitAnyCase(m[i])
    requires sep in ":-."
    ensures IsTwelveHexDigits(Upper(m))
    ensures ValidateMac(Separated(m, sep)) == Success(GroupPairs(Upper(m)))
  {
    assert forall i :: 0 <= i < 12 ==> m[i] !in ":-." && m[i] != LigatureFF;
    StripSeparated(m, sep);
    UpperHexAnyCase(m);
  }

  lemma StripSeparated(m: string, sep: char)
    requires |m| == 12 && ':' !in m && '-' !in m && '.' !in m
    requires sep in ":-."
    ensures StripSeparators(Separated(m, sep)) == m
  {
    var v := Separated(m, sep);
    Unseparate(m, sep);
    if sep == ':' {
      RemoveAbsent(m, '-');
      RemoveAbsent(m, '.');
    } else if sep == '-' {
      SeparatedLacks(m, sep, ':');
      RemoveAbsent(v, ':');
      RemoveAbsent(m, '.');
    } else {
      SeparatedLacks(m, sep, ':');
      SeparatedLacks(m, sep, '-');
      RemoveAbsent(v, ':');
      RemoveAbsent(v, '-');
    }
  }

  lemma UpperHexAnyCase(m: string)
    requires |m| == 12 && forall i :: 0 <= i < 12 ==> IsHexDigitAnyCase(m[i])
    ensures IsTwelveHexDigits(Upper(m))
  {
    assert LigatureFF !in m by {
      assert forall i :: 0 <= i < 12 ==> m[i] != LigatureFF;
    }
    UpperPointwise(m);
    forall i | 0 <= i < 12 ensures IsHexDigit(Upper(m)[i]) {
      assert IsHexDigitAnyCase(m[i]);
    }
  }

  /** Ten hex digits, such as `AABBCCDDEE`, are rejected: by the field's length bound, and by the validator too. */
  lemma TenDigitsRejected(v: string)
    requires |v| == 10 && forall i :: 0 <= i < |v| ==> IsHexDigit(v[i])
    ensures CheckMacAddress(v).Failure?
    ensures ValidateMac(v).Failure?
  {
    assert forall i :: 0 <= i < |v| ==> v[i] !in ":-." && !IsLowerAscii(v[i]) && v[i] != LigatureFF;
    RemoveAbsent(v, ':');
    RemoveAbsent(v, '-');
    RemoveAbsent(v, '.');
    UpperFixed(v);
  }

  /**
   * A character that is not a hex digit in either case and not a separator,
   * such as a space, `G` or `g`, is rejected.
   */
  lemma ForeignCharacterRejected(v: string, i: nat)
    requires i < |v| && !IsHexDigitAnyCase(v[i]) && v[i] !in ":-." && v[i] != LigatureFF
    ensures ValidateMac(v).Failure?
  {
    var c := v[i];
    assert c in v;
    var u := UpperChar(c)[0];
    assert u in Normalised(v);
    assert !IsHexDigit(u);
  }

  lemma ContainsKeptByStrip(v: string, c: char)
    requires c in v && c !in ":-."
    ensures c in StripSeparators(v)
  {
    RemoveKeeps(v, ':', c);
    RemoveKeeps(RemoveChar(v, ':'), '-', c);
    RemoveKeeps(RemoveChar(RemoveChar(v, ':'), '-'), '.', c);
  }

  lemma {:induction false} RemoveKeeps(s: string, d: char, c: char)
    requires c in s && c != d
    ensures c in RemoveChar(s, d)
  {
    if s[0] != c {
      RemoveKeeps(s[1..], d, c);
    }
  }


  /**
   * `validate_mac` exactly as written. Python's `re.match` with `$` also
   * matches just before a final newline, so twelve digits followed by "\n"
   * pass the check; the join then reads only the first twelve characters.
   */
  predicate MatchesAsWritten(n: string) {
    IsTwelveHexDigits(n) || (|n| == 13 && IsTwelveHexDigits(n[..12]) && n[12] == '\n')
  }

  function ValidateMacAsWritten(v: string): (r: Result<string, string>)
    ensures r.Success? <==> MatchesAsWritten(Normalised(v))
    ensures r.Success? ==> IsCanonicalMac(r.value) && RemoveChar(r.value, ':') == Normalised(v)[..12]
    ensures r.Failure? ==> r.error == InvalidMacMessage
  {
    var n := Normalised(v);
    if MatchesAsWritten(n) then
      assert IsTwelveHexDigits(n[..12]);
      UngroupPairs(n[..12]);
      Success(GroupPairs(n[..12]))
    else Failure(InvalidMacMessage)
  }

  /** The two validators differ only on input whose normalised form ends in that newline. */
  lemma AsWrittenDiffersOnlyOnTrailingNewline(v: string)
    requires !(|Normalised(v)| == 13 && Normalised(v)[12] == '\n')
    ensures ValidateMacAsWritten(v) == ValidateMac(v)
  {
    var n := Normalised(v);
    if IsTwelveHexDigits(n) {
      assert n[..12] == n;
    }
  }

  /** Twelve digits and a newline (13 characters, inside the 12..17 length bound) are accepted as written, and rejected by the corrected check. */
  lemma TrailingNewlineAccepted(n: string)
    requires IsTwelveHexDigits(n)
    ensures 12 <= |n + "\n"| <= 17
    ensures ValidateMacAsWritten(n + "\n") == Success(GroupPairs(n))
    ensures CheckMacAddress(n + "\n") == Success(GroupPairs(n))
    ensures ValidateMac(n + "\n").Failure?
  {
    var v := n + "\n";
    assert forall i :: 0 <= i < |v| ==> v[i] !in ":-.";
    RemoveAbsent(v, ':');
    RemoveAbsent(v, '-');
    RemoveAbsent(v, '.');
    UpperFixed(v);
    assert Normalised(v) == v;
    assert v[..12] == n;
  }

  // ---------------------------------------------------------------------------
  // Field constraints of the request models
  // ---------------------------------------------------------------------------

  /** Pydantic's checks of `Field(min_length=..., max_length=...)` on a string, in the order it applies them. */
  function CheckLength(s: string, minLength: nat, maxLength: Option<nat>): (r: Option<string>)
    ensures r.None? <==> minLength <= |s| && (maxLength.None? || |s| <= maxLength.value)
  {
    if |s| < minLength then Some("String should have at least " + Decimal(minLength) + " characters")
    else if maxLength.Some? && |s| > maxLength.value then Some("String should have at most " + Decimal(maxLength.value) + " characters")
    else None
  }

  /**
   * The `mac_address` field: length 12..17 on the raw text first, then
   * `validate_mac` as the source has it, so a final newline after the twelve
   * digits gets through.
   */
  function CheckMacAddress(raw: string): (r: Result<string, string>)
    ensures r.Success? <==> 12 <= |raw| <= 17 && MatchesAsWritten(Normalised(raw))
    ensures r.Success? ==> IsCanonicalMac(r.value) && RemoveChar(r.value, ':') == Normalised(raw)[..12]
  {
    match CheckLength(raw, 12, Some(17))
    case Some(message) => Failure(message)
    case None => ValidateMacAsWritten(raw)
  }

  /** The two values the `modo` pattern `^(single|bulk)$` admits. */
  datatype Modo = Single | Bulk

  datatype GatewayRequest = GatewayRequest(macAddress: string, modo: Modo, incluirEventos: bool)

  datatype FieldError = FieldError(field: string, message: string)

  const ModoPatternMessage: string := "String should match pattern '^(single|bulk)$'"

  function ParseModo(modo: string): (r: Option<Modo>)
    ensures r.Some? <==> modo == "single" || modo == "bulk"
    ensures r == Some(Single) <==> modo == "single"
  {
    if modo == "single" then Some(Single) else if modo == "bulk" then Some(Bulk) else None
  }

  /**
   * `AnalisisGatewayRequest`: every field is checked and every failing field is
   * reported; `modo` defaults to "single" and `incluir_eventos` to true.
   */
  function ParseGatewayRequest(mac: string, modo: Option<string>, incluirEventos: Option<bool>): (r: Result<GatewayRequest, seq<FieldError>>)
    ensures r.Success? <==> CheckMacAddress(mac).Success? && (modo.None? || modo.value == "single" || modo.value == "bulk")
    ensures r.Success? ==> IsCanonicalMac(r.value.macAddress) && RemoveChar(r.value.macAddress, ':') == Normalised(mac)[..12]
    ensures r.Success? ==> (r.value.modo == Single <==> modo.None? || modo.value == "single")
    ensures r.Success? ==> r.value.incluirEventos == (incluirEventos.None? || incluirEventos.value)
    ensures r.Failure? ==> 0 < |r.error| <= 2
    ensures r.Failure? ==> (CheckMacAddress(mac).Failure? <==> r.error[0].field == "mac_address")
  {
    var macResult := CheckMacAddress(mac);
    var modoResult := if modo.None? then Some(Single) else ParseModo(modo.value);
    var macErrors := if macResult.Failure? then [FieldError("mac_address", macResult.error)] else [];
    var modoErrors := if modoResult.None? then [FieldError("modo", ModoPatternMessage)] else [];
    if macErrors + modoErrors == [] then
      Success(GatewayRequest(macResult.value, modoResult.value, incluirEventos.None? || incluirEventos.value))
    else
      assert macErrors == [] ==> (macErrors + modoErrors)[0] == modoErrors[0];
      Failure(macErrors + modoErrors)
  }

  /** `UsuarioCreate.password`: at least eight characters (the field bound and the validator agree). */
  function CheckPassword(password: string): (r: Result<string, string>)
    ensures r.Success? <==> |password| >= 8
    ensures r.Success? ==> r.value == password
  {
    match CheckLength(password, 8, None)
    case Some(message) => Failure(message)
    case None => if |password| < 8 then Failure("La contraseña debe tener al menos 8 caracteres") else Success(password)
  }

  /** `ChatRequest.pregunta`: 1 to 1000 characters. */
  function CheckPregunta(pregunta: string): (r: Result<string, string>)
    ensures r.Success? <==> 1 <= |pregunta| <= 1000
    ensures r.Success? ==> r.value == pregunta
  {
    match CheckLength(pregunta, 1, Some(1000))
    case Some(message) => Failure(message)
    case None => Success(pregunta)
  }

  /** `PromptUpdateRequest.template`: at least 100 characters. */
  function CheckPromptTemplate(template: string): (r: Result<string, string>)
    ensures r.Success? <==> |template| >= 100
  {
    match CheckLength(template, 100, None)
    case Some(message) => Failure(message)
    case None => Success(template)
  }

  /**
   * `AnalisisBulkRequest.mac_addresses`: 1 to 50 entries. The entries
   * themselves are not validated by this model's source.
   */
  function CheckBulkList(macs: seq<string>): (r: Result<seq<string>, string>)
    ensures r.Success? <==> 1 <= |macs| <= 50
    ensures r.Success? ==> r.value == macs
  {
    if |macs| < 1 then Failure("List should have at least 1 item after validation, not " + Decimal(|macs|))
    else if |macs| > 50 then Failure("List should have at most 50 items after validation, not " + Decimal(|macs|))
    else Success(macs)
  }
}
