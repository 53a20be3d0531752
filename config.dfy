/**
 * Application settings (backend/app/config.py): the defaults the rest of the
 * backend relies on and the parsing of the CORS origin list.
 */
module Config {
  import opened Strings

  /** The settings this model reads; the remaining ones are credentials and labels. */
  datatype Settings = Settings(
    allowedOrigins: string,     // ALLOWED_ORIGINS
    maxChatHistory: int,        // MAX_CHAT_HISTORY
    jwtExpirationHours: int,    // JWT_EXPIRATION_HOURS
    gatewayBaseUrl: string,     // GATEWAY_BASE_URL (no default)
    gatewayUsername: string,    // GATEWAY_USERNAME (no default)
    gatewayPassword: string     // GATEWAY_PASSWORD (no default)
  )

  const DefaultAllowedOrigins: string := "*"
  const DefaultMaxChatHistory: int := 20
  const DefaultJwtExpirationHours: int := 24

  /** The settings obtained when only the required variables are given. */
  function WithDefaults(baseUrl: string, username: string, password: string): (s: Settings)
    ensures s.allowedOrigins == "*" && s.maxChatHistory == 20 && s.jwtExpirationHours == 24
    ensures s.gatewayBaseUrl == baseUrl && s.gatewayUsername == username && s.gatewayPassword == password
  {
    Settings(DefaultAllowedOrigins, DefaultMaxChatHistory, DefaultJwtExpirationHours, baseUrl, username, password)
  }

  /**
   * `Settings.allowed_origins_list`: "*" alone stands for every origin;
   * anything else is split at each comma and every piece is stripped of
   * surrounding whitespace. Empty pieces are kept.
   */
  function AllowedOriginsList(allowedOrigins: string): (r: seq<string>)
    ensures allowedOrigins == "*" ==> r == ["*"]
    ensures allowedOrigins != "*" ==> |r| == Occurrences(allowedOrigins, ',') + 1
    ensures forall i :: 0 <= i < |r| ==> ',' !in r[i]
    ensures forall i :: 0 <= i < |r| ==> r[i] == [] || (!IsSpace(r[i][0]) && !IsSpace(r[i][|r[i]| - 1]))
  {
    if allowedOrigins == "*" then ["*"]
    else
      var pieces := Split(allowedOrigins, ',');
      seq(|pieces|, i requires 0 <= i < |pieces| => StripInside(pieces[i], ','))
  }

  /** Stripping keeps a character that the piece did not contain out of the result. */
  function StripInside(piece: string, c: char): (r: string)
    requires c !in piece
    ensures r == Strip(piece) && c !in r
  {
    var r := Strip(piece);
    assert forall k :: 0 <= k < |r| ==> r[k] == piece[LeadingSpaces(piece) + k];
    r
  }

  /**
   * When the setting holds no whitespace (and is not "*"), joining the list back
   * with commas gives the setting itself: no origin is lost, reordered or merged.
   */
  lemma OriginsListRoundTrip(allowedOrigins: string)
    requires allowedOrigins != "*" && HasNoSpace(allowedOrigins)
    ensures Join(AllowedOriginsList(allowedOrigins), ",") == allowedOrigins
  {
    var pieces := Split(allowedOrigins, ',');
    var r := AllowedOriginsList(allowedOrigins);
    forall i | 0 <= i < |pieces| ensures r[i] == pieces[i] {
      SplitPieceHasNoSpace(allowedOrigins, ',', i);
      StripNoSpace(pieces[i]);
    }
    assert r == pieces;
    SplitJoin(allowedOrigins, ',');
  }

  /** Each origin is the stripped comma-separated piece at the same position. */
  lemma OriginsArePieces(allowedOrigins: string)
    requires allowedOrigins != "*"
    ensures |AllowedOriginsList(allowedOrigins)| == |Split(allowedOrigins, ',')|
    ensures forall i :: 0 <= i < |Split(allowedOrigins, ',')| ==>
              AllowedOriginsList(allowedOrigins)[i] == Strip(Split(allowedOrigins, ',')[i])
  {
  }

  /** Every piece of a split is made of characters of the string that was split. */
  lemma {:induction false} SplitPieceHasNoSpace(s: string, sep: char, i: nat)
    requires HasNoSpace(s) && i < |Split(s, sep)|
    ensures HasNoSpace(Split(s, sep)[i])
  {
    if s != [] {
      var init := Split(s[..|s| - 1], sep);
      if i < |init| {
        SplitPieceHasNoSpace(s[..|s| - 1], sep, i);
      }
      if |init| > 0 {
        SplitPieceHasNoSpace(s[..|s| - 1], sep, |init| - 1);
      }
    }
  }

  /** The default setting "*" lets every origin through. */
  lemma DefaultOriginsAreWildcard()
    ensures AllowedOriginsList(DefaultAllowedOrigins) == ["*"]
  {
  }

  /** Two commas in a row give an empty origin between the two names: `"a,,b"` is `["a", "", "b"]`. */
  lemma EmptyPiecesAreKept(x: string, y: string)
    requires ',' !in x && ',' !in y && HasNoSpace(x) && HasNoSpace(y)
    ensures AllowedOriginsList(x + ",," + y) == [x, "", y]
  {
    var s := x + ",," + y;
    assert s == x + [','] + ([] + [','] + y);
    assert s != "*" by { assert s[|x|] == ','; }
    SplitConcat(x, [] + [','] + y, ',');
    SplitConcat([], y, ',');
    SplitWithoutSeparator(x, ',');
    SplitWithoutSeparator(y, ',');
    assert Split([], ',') == [""];
    OriginsArePieces(s);
    StripNoSpace(x);
    StripNoSpace(y);
    StripNoSpace("");
  }

  /** Each side of a single comma becomes one origin, stripped of its surrounding spaces. */
  lemma TwoOrigins(x: string, y: string)
    requires ',' !in x && ',' !in y
    ensures AllowedOriginsList(x + "," + y) == [Strip(x), Strip(y)]
  {
    var s := x + "," + y;
    assert s == x + [','] + y;
    assert s != "*" by { assert s[|x|] == ','; }
    SplitConcat(x, y, ',');
    SplitWithoutSeparator(x, ',');
    SplitWithoutSeparator(y, ',');
    OriginsArePieces(s);
  }
}
