/**
 How Python turns the values and exceptions of the bot into text: `str(int)`,
 `str(v)` and `repr(v)` of decoded JSON values, and `str(e)` of the exceptions
 the bot raises and reports.
 */
module PyText {
  import opened PyValue

  predicate IsDigit(c: char) {
    '0' <= c <= '9'
  }

  function DigitChar(d: nat): (c: char)
    requires d < 10
    ensures IsDigit(c)
  {
    "0123456789"[d]
  }

  function DigitValue(c: char): (d: nat)
    requires IsDigit(c)
    ensures d < 10
  {
    (c as int - '0' as int) as nat
  }

  /** Decimal digits of `n`, most significant first, as `str(n)` writes them. */
  function NatToString(n: nat): (s: string)
    ensures |s| > 0
    ensures forall k :: 0 <= k < |s| ==> IsDigit(s[k])
    ensures s[0] == '0' ==> n == 0
    decreases n
  {
    if n < 10 then [DigitChar(n)] else NatToString(n / 10) + [DigitChar(n % 10)]
  }

  /** `str(i)` for a Python int: a minus sign before the digits of a negative number. */
  function IntToString(i: int): (s: string)
    ensures |s| > 0
    ensures s[0] == '-' <==> i < 0
  {
    if i < 0 then "-" + NatToString(-i) else NatToString(i)
  }

  /** Reads back a string of decimal digits, the reference for `NatToString`. */
  function ParseNat(s: string): (n: nat)
    requires forall k :: 0 <= k < |s| ==> IsDigit(s[k])
  {
    if |s| == 0 then 0 else ParseNat(s[..|s| - 1]) * 10 + DigitValue(s[|s| - 1])
  }

  /** Reads back an optionally signed decimal string, the reference for `IntToString`. */
  function ParseInt(s: string): int
    requires |s| > 0
    requires s[0] == '-' ==> forall k :: 1 <= k < |s| ==> IsDigit(s[k])
    requires s[0] != '-' ==> forall k :: 0 <= k < |s| ==> IsDigit(s[k])
  {
    if s[0] == '-' then 0 - ParseNat(s[1..]) else ParseNat(s)
  }

  lemma DigitRoundTrip(d: nat)
    requires d < 10
    ensures DigitValue(DigitChar(d)) == d
  {
  }

  /** The digits `str` writes for a natural number read back as that number. */
  lemma {:induction false} NatToStringRoundTrip(n: nat)
    ensures ParseNat(NatToString(n)) == n
    decreases n
  {
    DigitRoundTrip(n % 10);
    if n >= 10 {
      var prefix := NatToString(n / 10);
      var s := prefix + [DigitChar(n % 10)];
      assert s[..|s| - 1] == prefix;
      NatToStringRoundTrip(n / 10);
    }
  }

  /** `str(i)` loses nothing: the integer is recovered from its text. */
  lemma IntToStringRoundTrip(i: int)
    ensures ParseInt(IntToString(i)) == i
  {
    if i < 0 {
      var digits := NatToString(-i);
      var s := "-" + digits;
      assert s[0] == '-' && s[1..] == digits;
      NatToStringRoundTrip(-i);
      assert ParseInt(s) == 0 - ParseNat(digits);
    } else {
      NatToStringRoundTrip(i);
    }
  }

  /** Distinct integers have distinct texts. */
  lemma IntToStringInjective(i: int, j: int)
    requires IntToString(i) == IntToString(j)
    ensures i == j
  {
    IntToStringRoundTrip(i);
    IntToStringRoundTrip(j);
  }

  /** The quote `repr` puts around a string: a single quote, unless the string
      holds a single quote and no double quote. */
  function QuoteFor(s: string): (q: char)
    ensures q == '\'' || q == '"'
  {
    if '\'' in s && '"' !in s then '"' else '\''
  }

  /** A character as it appears between `repr`'s quotes. */
  function EscapeChar(c: char, q: char): string {
    if c == q || c == '\\' then ['\\', c]
    else if c == '\n' then "\\n"
    else if c == '\r' then "\\r"
    else if c == '\t' then "\\t"
    else [c]
  }

  function Escape(s: string, q: char): string {
    if |s| == 0 then "" else EscapeChar(s[0], q) + Escape(s[1..], q)
  }

  /** `repr(s)` of a string. */
  function StrRepr(s: string): (r: string)
    ensures |r| >= 2 && r[0] == r[|r| - 1] == QuoteFor(s)
  {
    [QuoteFor(s)] + Escape(s, QuoteFor(s)) + [QuoteFor(s)]
  }

  /** Printable characters `repr` keeps as they are: printable ASCII and the
      Cyrillic block, but neither a single quote nor a backslash. */
  predicate PlainChar(c: char) {
    && (' ' <= c <= '~' || '\U{400}' <= c <= '\U{4FF}')
    && c != '\'' && c != '\\'
  }

  predicate Plain(s: string) {
    forall k :: 0 <= k < |s| ==> PlainChar(s[k])
  }

  lemma {:induction false} EscapeIdentity(s: string)
    requires Plain(s)
    ensures Escape(s, '\'') == s
    decreases |s|
  {
    if |s| > 0 {
      assert PlainChar(s[0]);
      assert Plain(s[1..]) by {
        forall k | 0 <= k < |s[1..]| ensures PlainChar(s[1..][k]) {
          assert s[1..][k] == s[k + 1];
        }
      }
      EscapeIdentity(s[1..]);
      assert s == [s[0]] + s[1..];
    }
  }

  /** `repr` of a string of printable ASCII and Cyrillic characters, with no
      single quote or backslash, is the string between single quotes. */
  lemma PlainRepr(s: string)
    requires Plain(s)
    ensures StrRepr(s) == "'" + s + "'"
  {
    assert forall c :: c in s ==> c != '\'';
    EscapeIdentity(s);
  }

  /** `str(v)` (`quoted` false) and `repr(v)` (`quoted` true) of a decoded JSON value.
      They differ only for strings, which `repr` quotes. */
  function Render(v: Value, quoted: bool): string
    decreases v, 1
  {
    match v
    case Null => "None"
    case Bool(b) => if b then "True" else "False"
    case Int(i) => IntToString(i)
    case Str(s) => if quoted then StrRepr(s) else s
    case List(items) => "[" + RenderItems(v, items) + "]"
    case Dict(entries) => "{" + RenderEntries(v, entries) + "}"
  }

  /** The elements of a list, each by `repr`, separated by ", ". */
  function RenderItems(ghost parent: Value, items: seq<Value>): string
    requires forall x :: x in items ==> x < parent
    decreases parent, 0, |items|
  {
    if |items| == 0 then ""
    else
      assert items[0] in items;
      assert forall x :: x in items[1..] ==> x in items;
      Render(items[0], true) + (if |items| == 1 then "" else ", " + RenderItems(parent, items[1..]))
  }

  /** The entries of a dict as `'key': repr(value)`, separated by ", ". */
  function RenderEntries(ghost parent: Value, entries: seq<(string, Value)>): string
    requires forall e :: e in entries ==> e.1 < parent
    decreases parent, 0, |entries|
  {
    if |entries| == 0 then ""
    else
      assert entries[0] in entries;
      assert forall e :: e in entries[1..] ==> e in entries;
      StrRepr(entries[0].0) + ": " + Render(entries[0].1, true)
        + (if |entries| == 1 then "" else ", " + RenderEntries(parent, entries[1..]))
  }

  /** `str(v)`, which is how an f-string shows a value. */
  function Display(v: Value): (r: string)
    ensures v.Str? ==> r == v.s
  {
    Render(v, false)
  }

  /** How `str` and `repr` show the scalar values: `repr` quotes a string and
      `str` does not; None, booleans and ints look the same either way, and an
      int's text reads back as that int. */
  lemma RenderScalars(v: Value, quoted: bool)
    ensures v.Str? ==> Render(v, quoted) == if quoted then StrRepr(v.s) else v.s
    ensures v.Null? ==> Render(v, quoted) == "None"
    ensures v.Bool? ==> Render(v, quoted) == if v.b then "True" else "False"
    ensures v.Int? ==> Render(v, quoted) == IntToString(v.i) && ParseInt(Render(v, quoted)) == v.i
  {
    if v.Int? {
      IntToStringRoundTrip(v.i);
    }
  }

  /** `str` and `repr` show a list in brackets and a dict in braces. */
  lemma RenderContainers(v: Value, quoted: bool)
    ensures v.List? ==> |Render(v, quoted)| >= 2 && Render(v, quoted)[0] == '[' && Render(v, quoted)[|Render(v, quoted)| - 1] == ']'
    ensures v.Dict? ==> |Render(v, quoted)| >= 2 && Render(v, quoted)[0] == '{' && Render(v, quoted)[|Render(v, quoted)| - 1] == '}'
  {
  }

  /** The exceptions the bot raises, by class, with their single argument. */
  datatype Exception =
    | TypeError(msg: string)
    | KeyError(msg: string)
    | AttributeError(msg: string)
    | ConnectionError(msg: string)
      /** An exception raised inside a library whose class and text the model takes as given. */
    | Foreign(text: string)

  /** What a Python call ends with: a returned value or a raised exception. */
  datatype Result<+T> = Ok(value: T) | Err(error: Exception)

  /** `str(e)`. A KeyError is the one class whose text is the `repr` of its argument. */
  function ExceptionText(e: Exception): string {
    match e
    case KeyError(m) => StrRepr(m)
    case TypeError(m) => m
    case AttributeError(m) => m
    case ConnectionError(m) => m
    case Foreign(t) => t
  }

  lemma KeyErrorText(m: string)
    requires Plain(m)
    ensures ExceptionText(KeyError(m)) == "'" + m + "'"
    ensures ExceptionText(KeyError(m)) != m
  {
    PlainRepr(m);
  }
}
