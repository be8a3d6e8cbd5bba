/**
 * The helpers of the client's utility file: JWT expiry arithmetic over the
 * decoded claims, the mm:ss countdown format and the leaderboard rank label.
 * Decoding a payload (base64 and JSON) is foreign code and arrives as a
 * parameter; the clock (`Date.now()`, in milliseconds) does too.
 */
module Utils {
  import opened Wrappers
  import opened Text

  /** The `exp` claim: seconds since the epoch, or a JSON value that is not a number. */
  datatype ExpClaim = Numeric(seconds: int) | NotNumeric

  /** The claims the client reads from a token payload; a missing claim is None. */
  datatype Claims = Claims(exp: Option<ExpClaim>, email: Option<string>, displayName: Option<string>)

  /** The empty claim map `{}`. */
  const NoClaims := Claims(None, None, None)

  /** `JSON.parse(atob(segment))`: the claims, or None where it throws. */
  type PayloadParser = string -> Option<Claims>

  /** `s.split(sep)` has a second part exactly when the separator occurs. */
  lemma SplitHasSecondPart(s: string, sep: char)
    ensures |Split(s, sep)| >= 2 <==> sep in s
  {
    if sep !in s {
      SplitWithoutSeparator(s, sep);
    } else {
      JoinSplit(s, sep);
    }
  }

  /**
   * `token.split('.')[1]`: the payload segment, absent when the token has no
   * dot; otherwise the text after the first dot, up to the next dot or the end.
   */
  function PayloadSegment(token: string): (seg: Option<string>)
    ensures seg.None? <==> '.' !in token
    ensures seg.Some? ==> '.' !in seg.value
    ensures seg.Some? ==>
      var header := FirstSegment(token, '.');
      && |header| < |token| && token[|header|] == '.'
      && var rest := token[|header| + 1..];
         seg.value <= rest && (|seg.value| == |rest| || rest[|seg.value|] == '.')
  {
    SplitHasSecondPart(token, '.');
    var parts := Split(token, '.');
    if |parts| >= 2 then
      SplitAtFirst(token, '.');
      FirstSegmentIsPrefix(token[|FirstSegment(token, '.')| + 1..], '.');
      Some(parts[1])
    else None
  }

  /**
   * `decodeJwt`: never fails. A token without a payload segment, or whose
   * segment does not decode, yields the empty claim map.
   */
  function DecodeJwt(token: string, parse: PayloadParser): (c: Claims)
    ensures '.' !in token ==> c == NoClaims
    ensures c == NoClaims || parse(PayloadSegment(token).value) == Some(c)
    ensures PayloadSegment(token).Some? && parse(PayloadSegment(token).value).None? ==> c == NoClaims
    ensures PayloadSegment(token).Some? && parse(PayloadSegment(token).value).Some? ==>
      c == parse(PayloadSegment(token).value).value
  {
    match PayloadSegment(token)
    case None => NoClaims
    case Some(seg) => parse(seg).GetOr(NoClaims)
  }

  /** The numeric `exp` claim of a token, if it has one. */
  function ExpOf(token: string, parse: PayloadParser): Option<int> {
    match DecodeJwt(token, parse).exp
    case Some(Numeric(e)) => Some(e)
    case _ => None
  }

  /** `isJwtExpired`: expired unless the token has a numeric `exp` that lies in the future. */
  function IsJwtExpired(token: string, nowMs: int, parse: PayloadParser): (expired: bool)
    ensures !expired <==> ExpOf(token, parse).Some? && nowMs < ExpOf(token, parse).value * 1000
  {
    match DecodeJwt(token, parse).exp
    case Some(Numeric(e)) => nowMs >= e * 1000
    case _ => true
  }

  /**
   * `jwtMinutesRemaining`: the whole minutes left before expiry, never
   * negative, and 0 without a numeric `exp`.
   */
  function JwtMinutesRemaining(token: string, nowMs: int, parse: PayloadParser): (minutes: nat)
    ensures ExpOf(token, parse).None? ==> minutes == 0
    ensures ExpOf(token, parse).Some? ==>
      var left := ExpOf(token, parse).value * 1000 - nowMs;
      (left < 60000 ==> minutes == 0) &&
      (left >= 0 ==> minutes * 60000 <= left < (minutes + 1) * 60000)
  {
    match DecodeJwt(token, parse).exp
    case Some(Numeric(e)) =>
      var m := (e * 1000 - nowMs) / 60000;
      if m < 0 then 0 else m
    case _ => 0
  }

  /** An expired token never shows minutes left. */
  lemma ExpiredTokenHasNoMinutesLeft(token: string, nowMs: int, parse: PayloadParser)
    requires IsJwtExpired(token, nowMs, parse)
    ensures JwtMinutesRemaining(token, nowMs, parse) == 0
  {
  }

  /** `n.toString().padStart(2, '0')`. */
  function Pad2(n: nat): (s: string)
    ensures |s| >= 2 && AllDigits(s) && ValueOf(s) == n
    ensures n < 100 ==> |s| == 2
    ensures n >= 10 ==> s[0] != '0'
    ensures ':' !in s
  {
    var d := Decimal(n);
    ValueOfDecimal(n);
    if |d| < 2 then
      assert ("0" + d)[..1] == "0";
      "0" + d
    else d
  }

  /**
   * `formatTime`: minutes, a colon, then two-digit seconds. The seconds field
   * is below 60, the minutes field is never cut short, and reading both
   * fields back gives the number of seconds.
   */
  function FormatTime(totalSeconds: nat): (r: string)
    ensures |r| >= 5 && r[|r| - 3] == ':'
    ensures AllDigits(r[..|r| - 3]) && AllDigits(r[|r| - 2..])
    ensures ValueOf(r[|r| - 2..]) < 60
    ensures ValueOf(r[..|r| - 3]) == totalSeconds / 60
    ensures ValueOf(r[..|r| - 3]) * 60 + ValueOf(r[|r| - 2..]) == totalSeconds
  {
    var m := Pad2(totalSeconds / 60);
    var s := Pad2(totalSeconds % 60);
    var r := m + ":" + s;
    assert r[..|r| - 3] == m;
    assert r[|r| - 2..] == s;
    r
  }

  /** Splitting the clock text at its colon gives the two padded fields. */
  lemma FormatTimeFields(totalSeconds: nat)
    ensures Split(FormatTime(totalSeconds), ':') == [Pad2(totalSeconds / 60), Pad2(totalSeconds % 60)]
  {
    SplitAround(Pad2(totalSeconds / 60), Pad2(totalSeconds % 60), ':');
  }

  /** `rankLabel`: a medal for the first three places, `#` and the place number after that. */
  function RankLabel(index: nat): (shown: string)
    ensures index == 0 ==> shown == "\U{1F947}"
    ensures index == 1 ==> shown == "\U{1F948}"
    ensures index == 2 ==> shown == "\U{1F949}"
    ensures index < 3 ==> |shown| == 1 && shown[0] != '#'
    ensures index >= 3 ==> |shown| >= 2 && shown[0] == '#' && AllDigits(shown[1..]) && ValueOf(shown[1..]) == index + 1
  {
    if index == 0 then "\U{1F947}"
    else if index == 1 then "\U{1F948}"
    else if index == 2 then "\U{1F949}"
    else
      ValueOfDecimal(index + 1);
      assert ("#" + Decimal(index + 1))[1..] == Decimal(index + 1);
      "#" + Decimal(index + 1)
  }

  /** Different places always get different labels. */
  lemma RankLabelInjective(i: nat, j: nat)
    requires RankLabel(i) == RankLabel(j)
    ensures i == j
  {
  }
}
