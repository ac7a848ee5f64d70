/**
 * Parameter normalisation of the listing handler: the configured bucket name,
 * the query-string parameters of the gateway event, the `prefix` and
 * `max_keys` defaults, the integer parse of `max_keys` and its clamp to the
 * storage service's page limit.
 */
module Params {
  import opened Wrappers

  /** `max_keys` when the caller sends none. */
  const DefaultMaxKeys: int := 100

  /** The largest `max_keys` the storage service accepts; larger requests are reduced to it. */
  const MaxKeysLimit: int := 1000

  /**
   * The part of the gateway event the handler reads. `queryStringParameters`
   * is `None` both when the key is absent and when the gateway sends `null`.
   */
  datatype Event = Event(queryStringParameters: Option<map<string, string>>)

  /** The query parameters, with an absent or null mapping read as the empty one. */
  function QueryParams(event: Event): map<string, string>
  {
    event.queryStringParameters.GetOr(map[])
  }

  predicate IsDigit(c: char) {
    '0' <= c <= '9'
  }

  predicate AllDigits(s: string) {
    forall i :: 0 <= i < |s| ==> IsDigit(s[i])
  }

  /** The value of a string of decimal digits, most significant digit first. */
  function DigitsValue(s: string): nat
    requires AllDigits(s)
  {
    if s == [] then 0 else DigitsValue(s[..|s| - 1]) * 10 + (s[|s| - 1] as int - '0' as int)
  }

  /**
   * Python's `int(s)` on a string, restricted to an optional sign followed by
   * one or more decimal digits (leading zeros allowed). `None` stands for the
   * `ValueError` that `int` raises on anything else.
   */
  function ParseInt(s: string): (r: Option<int>)
    ensures s == [] ==> r.None?
    ensures |s| > 0 && AllDigits(s) ==> r == Some(DigitsValue(s))
    ensures |s| > 1 && s[0] == '-' && AllDigits(s[1..]) ==> r == Some(-(DigitsValue(s[1..]) as int))
    ensures |s| > 1 && s[0] == '+' && AllDigits(s[1..]) ==> r == Some(DigitsValue(s[1..]))
    ensures r.Some? ==> |s| > 0 && (AllDigits(s) || ((s[0] == '-' || s[0] == '+') && |s| > 1 && AllDigits(s[1..])))
  {
    if |s| > 1 && (s[0] == '-' || s[0] == '+') && AllDigits(s[1..]) then
      Some(if s[0] == '-' then -(DigitsValue(s[1..]) as int) else DigitsValue(s[1..]))
    else if |s| > 0 && AllDigits(s) then
      Some(DigitsValue(s))
    else
      None
  }

  /** The decimal text of a natural number, as Python's `str` writes it. */
  function ShowNat(n: nat): string
  {
    if n < 10 then [('0' as int + n) as char] else ShowNat(n / 10) + [('0' as int + n % 10) as char]
  }

  /** The decimal text of an integer, as Python's `str` writes it. */
  function ShowInt(n: int): string
  {
    if n < 0 then "-" + ShowNat(-n) else ShowNat(n)
  }

  lemma {:induction false} ShowNatDigits(n: nat)
    ensures |ShowNat(n)| > 0 && AllDigits(ShowNat(n)) && DigitsValue(ShowNat(n)) == n
  {
    if n >= 10 {
      ShowNatDigits(n / 10);
      var s := ShowNat(n);
      assert s[..|s| - 1] == ShowNat(n / 10);
    }
  }

  /** Every integer written out in decimal parses back to itself. */
  lemma ParseShowRoundTrip(n: int)
    ensures ParseInt(ShowInt(n)) == Some(n)
  {
    if n < 0 {
      ShowNatDigits(-n);
      assert ShowInt(n)[1..] == ShowNat(-n);
    } else {
      ShowNatDigits(n);
    }
  }

  /** The fixed start of the `ValueError` text `int` raises for an unparsable string. */
  const InvalidLiteralPrefix: string := "invalid literal for int() with base 10: "

  /** How many characters of the literal's `repr` the message keeps (`%.200R`). */
  const ReprCut: nat := 200

  /** A lower-case hexadecimal digit. */
  function HexDigit(d: int): char
    requires 0 <= d < 16
  {
    if d < 10 then ('0' as int + d) as char else ('a' as int + d - 10) as char
  }

  /**
   * The characters of the Latin-1 range that `str.isprintable` rejects: the
   * C0 and C1 controls, DEL, the no-break space and the soft hyphen.
   */
  predicate NonPrintableLatin1(c: char) {
    c as int < 0x20 || (0x7f <= c as int <= 0xa0) || c as int == 0xad
  }

  /** What `repr` writes for one character of a string it quotes with `quote`. */
  function ReprChar(c: char, quote: char): (r: string)
    ensures |r| > 0
  {
    if c == quote || c == '\\' then ['\\', c]
    else if c == '\t' then "\\t"
    else if c == '\n' then "\\n"
    else if c == '\r' then "\\r"
    else if NonPrintableLatin1(c) then ['\\', 'x', HexDigit(c as int / 16), HexDigit(c as int % 16)]
    else [c]
  }

  /** The characters of a string as `repr` writes them between the quotes. */
  function ReprBody(s: string, quote: char): string
  {
    if s == [] then [] else ReprChar(s[0], quote) + ReprBody(s[1..], quote)
  }

  /** `repr` quotes with `"` when the text holds a `'` and no `"`, and with `'` otherwise. */
  function ReprQuote(s: string): char
  {
    if '\'' in s && '"' !in s then '"' else '\''
  }

  /** `repr` of a string whose characters are at most U+00FF. */
  function Repr(s: string): string
  {
    [ReprQuote(s)] + ReprBody(s, ReprQuote(s)) + [ReprQuote(s)]
  }

  /**
   * The text `int` puts in the `ValueError` it raises for an unparsable string:
   * the fixed prefix and the first 200 characters of the literal's `repr`.
   */
  function InvalidLiteralMessage(literal: string): (r: string)
    ensures |InvalidLiteralPrefix| < |r| <= |InvalidLiteralPrefix| + ReprCut
    ensures r[..|InvalidLiteralPrefix|] == InvalidLiteralPrefix
  {
    var text := Repr(literal);
    InvalidLiteralPrefix + (if |text| <= ReprCut then text else text[..ReprCut])
  }

  /** A character `repr` writes as itself inside single quotes. */
  predicate PlainChar(c: char) {
    c != '\'' && c != '\\' && !NonPrintableLatin1(c)
  }

  lemma {:induction false} ReprBodyPlain(s: string)
    requires forall i :: 0 <= i < |s| ==> PlainChar(s[i])
    ensures ReprBody(s, '\'') == s
  {
    if s != [] {
      ReprBodyPlain(s[1..]);
    }
  }

  /** A literal of plain characters is written back between single quotes, unchanged. */
  lemma ReprPlain(s: string)
    requires forall i :: 0 <= i < |s| ==> PlainChar(s[i])
    ensures Repr(s) == "'" + s + "'"
  {
    ReprBodyPlain(s);
  }

  /** A plain literal of at most 198 characters appears whole in the message, quoted. */
  lemma ShortPlainLiteralQuotedWhole(s: string)
    requires forall i :: 0 <= i < |s| ==> PlainChar(s[i])
    requires |s| + 2 <= ReprCut
    ensures InvalidLiteralMessage(s) == InvalidLiteralPrefix + "'" + s + "'"
  {
    ReprPlain(s);
  }

  /** A plain literal of 199 characters or more is cut: the opening quote and its first 199 characters, no closing quote. */
  lemma LongPlainLiteralCut(s: string)
    requires forall i :: 0 <= i < |s| ==> PlainChar(s[i])
    requires |s| + 2 > ReprCut
    ensures InvalidLiteralMessage(s) == InvalidLiteralPrefix + "'" + s[..ReprCut - 1]
  {
    ReprPlain(s);
    var text := "'" + s + "'";
    assert text[..ReprCut] == "'" + s[..ReprCut - 1];
  }

  /** A literal holding a single quote and no double quote is quoted with `"` in the message; any other with `'`. */
  lemma ReprQuoteChoice(s: string)
    ensures '\'' in s && '"' !in s ==> InvalidLiteralMessage(s)[|InvalidLiteralPrefix|] == '"'
    ensures !('\'' in s && '"' !in s) ==> InvalidLiteralMessage(s)[|InvalidLiteralPrefix|] == '\''
  {
    var text := Repr(s);
    assert text[0] == ReprQuote(s);
  }

  /**
   * The `if max_keys > 1000` clamp: values above the limit become the limit, all
   * others (zero and negative ones included) pass unchanged.
   */
  function ClampMaxKeys(n: int): (m: int)
    ensures m <= MaxKeysLimit && m <= n
    ensures m == n || m == MaxKeysLimit
    ensures n > MaxKeysLimit ==> m == MaxKeysLimit
  {
    if n > MaxKeysLimit then MaxKeysLimit else n
  }

  /** What the handler has decided before it calls the storage service. */
  datatype Normalised =
    | NotConfigured
    | InvalidMaxKeys(literal: string)
    | Ready(bucketName: string, prefix: string, maxKeys: int)

  predicate Configured(bucketEnv: Option<string>) {
    bucketEnv.Some? && bucketEnv.value != ""
  }

  /**
   * The first part of `lambda_handler`, up to the listing call: check the
   * bucket name, default the query parameters, parse `max_keys` and clamp it.
   */
  function Normalise(bucketEnv: Option<string>, event: Event): (r: Normalised)
    // The bucket is checked first, whatever the query parameters hold.
    ensures r.NotConfigured? <==> !Configured(bucketEnv)
    ensures r.Ready? ==> r.bucketName == bucketEnv.value && r.maxKeys <= MaxKeysLimit
    ensures r.Ready? ==> r.prefix == if "prefix" in QueryParams(event) then QueryParams(event)["prefix"] else ""
    // Without a `max_keys` parameter the default is used and nothing can fail.
    ensures Configured(bucketEnv) && "max_keys" !in QueryParams(event) ==> r.Ready? && r.maxKeys == DefaultMaxKeys
    ensures Configured(bucketEnv) && event.queryStringParameters.None? ==> r == Ready(bucketEnv.value, "", DefaultMaxKeys)
    // A `max_keys` that does not parse is rejected, and only such a one.
    ensures r.InvalidMaxKeys? <==>
              Configured(bucketEnv) && "max_keys" in QueryParams(event) && ParseInt(QueryParams(event)["max_keys"]).None?
    ensures r.InvalidMaxKeys? ==> r.literal == QueryParams(event)["max_keys"]
    // A parsed `max_keys` is clamped from above only.
    ensures Configured(bucketEnv) && "max_keys" in QueryParams(event) && ParseInt(QueryParams(event)["max_keys"]).Some? ==>
              r.Ready? && r.maxKeys == ClampMaxKeys(ParseInt(QueryParams(event)["max_keys"]).value)
  {
    if !Configured(bucketEnv) then
      NotConfigured
    else
      var q := QueryParams(event);
      var prefix := if "prefix" in q then q["prefix"] else "";
      if "max_keys" !in q then
        Ready(bucketEnv.value, prefix, DefaultMaxKeys)
      else
        match ParseInt(q["max_keys"])
        case None => InvalidMaxKeys(q["max_keys"])
        case Some(n) => Ready(bucketEnv.value, prefix, ClampMaxKeys(n))
  }
}
