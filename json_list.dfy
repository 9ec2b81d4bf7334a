/**
 * The `JSONEncodedList` column type: a list of strings stored in a text
 * column as JSON.  Binding a value serialises it the way `json.dumps` does
 * with its defaults (`ensure_ascii` on, items separated by ", "); reading a
 * value back parses it the way `json.loads` does for an array of strings.
 * `None` passes through in both directions.
 */
module JsonList {
  import opened Wrappers

  // ---------------------------------------------------------------------
  // Serialisation (json.dumps)
  // ---------------------------------------------------------------------

  predicate IsPrintableAscii(c: char) {
    ' ' <= c <= '~'
  }

  predicate AllPrintableAscii(s: string) {
    forall i :: 0 <= i < |s| ==> IsPrintableAscii(s[i])
  }

  /** Lower-case hexadecimal digit, as `format(d, "x")` writes it. */
  function HexDigit(d: nat): (c: char)
    requires d < 16
    ensures IsPrintableAscii(c) && c != '"' && c != '\\'
  {
    if d < 10 then ('0' as int + d) as char else ('a' as int + d - 10) as char
  }

  /** Four lower-case hexadecimal digits of a code unit, most significant first. */
  function Hex4(n: nat): (s: string)
    requires n < 0x10000
    ensures |s| == 4 && AllPrintableAscii(s)
  {
    var q1 := n / 16;
    var q2 := q1 / 16;
    var q3 := q2 / 16;
    [HexDigit(q3), HexDigit(q2 % 16), HexDigit(q1 % 16), HexDigit(n % 16)]
  }

  /**
   * The escape that `json.dumps` writes for one character: a two-character
   * escape for the quote, the backslash and five control characters, the
   * character itself when it is printable ASCII, and `\uXXXX` (a UTF-16
   * surrogate pair above U+FFFF) for everything else.
   */
  function EscapeChar(c: char): (s: string)
    ensures |s| > 0 && s[0] != '"' && AllPrintableAscii(s)
  {
    if c == '"' then "\\\""
    else if c == '\\' then "\\\\"
    else if c == '\n' then "\\n"
    else if c == '\r' then "\\r"
    else if c == '\t' then "\\t"
    else if c as int == 8 then "\\b"
    else if c as int == 12 then "\\f"
    else if IsPrintableAscii(c) then [c]
    else if c as int < 0x10000 then "\\u" + Hex4(c as int)
    else
      var v := c as int - 0x10000;
      "\\u" + Hex4(0xD800 + v / 0x400) + "\\u" + Hex4(0xDC00 + v % 0x400)
  }

  function EscapeString(s: string): (r: string)
    ensures AllPrintableAscii(r)
  {
    if s == [] then [] else EscapeChar(s[0]) + EscapeString(s[1..])
  }

  /** A string literal: the escaped text between double quotes. */
  function QuoteString(s: string): (q: string)
    ensures |q| >= 2 && q[0] == '"' && AllPrintableAscii(q)
  {
    "\"" + EscapeString(s) + "\""
  }

  /** Every item of a list as a string literal. */
  function Quoted(xs: seq<string>): (qs: seq<string>)
    ensures |qs| == |xs|
  {
    seq(|xs|, i requires 0 <= i < |xs| => QuoteString(xs[i]))
  }

  /** `", ".join(qs)`. */
  function JoinQuoted(qs: seq<string>): string {
    if qs == [] then ""
    else if |qs| == 1 then qs[0]
    else qs[0] + ", " + JoinQuoted(qs[1..])
  }

  /** `json.dumps` of a list of strings. */
  function Dumps(xs: seq<string>): (s: string)
    ensures |s| >= 2 && s[0] == '[' && s[|s| - 1] == ']'
  {
    "[" + JoinQuoted(Quoted(xs)) + "]"
  }

  // ---------------------------------------------------------------------
  // Parsing (json.loads, for an array of strings)
  // ---------------------------------------------------------------------

  predicate IsWhitespace(c: char) {
    c == ' ' || c == '\t' || c == '\n' || c == '\r'
  }

  function SkipWhitespace(s: string): (r: string)
    ensures |r| <= |s| && r == s[|s| - |r|..]
    ensures r == [] || !IsWhitespace(r[0])
  {
    if s != [] && IsWhitespace(s[0]) then SkipWhitespace(s[1..]) else s
  }

  function HexValue(c: char): Option<nat> {
    if '0' <= c <= '9' then Some(c as int - '0' as int)
    else if 'a' <= c <= 'f' then Some(c as int - 'a' as int + 10)
    else if 'A' <= c <= 'F' then Some(c as int - 'A' as int + 10)
    else None
  }

  /** Exactly four hexadecimal digits at the head of `s`, and what follows them. */
  function ParseHex4(s: string): (r: Option<(nat, string)>)
    ensures r.Some? ==> |s| >= 4 && r.value.0 < 0x10000 && r.value.1 == s[4..]
  {
    if |s| < 4 then None
    else match (HexValue(s[0]), HexValue(s[1]), HexValue(s[2]), HexValue(s[3]))
      case (Some(a), Some(b), Some(c), Some(d)) =>
        assert a < 16 && b < 16 && c < 16 && d < 16;
        Some((((a * 16 + b) * 16 + c) * 16 + d, s[4..]))
      case _ => None
  }

  /**
   * The character written as `\uXXXX` (`s` starts after the `u`), joining a
   * high surrogate with the `\uXXXX` low surrogate after it.  A surrogate
   * that is not part of such a pair is not a character and is refused.
   */
  function ParseUnicodeEscape(s: string): (r: Option<(char, string)>)
    ensures r.Some? ==> |r.value.1| < |s|
  {
    match ParseHex4(s)
    case None => None
    case Some((hi, rest)) =>
      if 0xD800 <= hi < 0xDC00 then
        if |rest| >= 2 && rest[0] == '\\' && rest[1] == 'u' then
          match ParseHex4(rest[2..])
          case Some((lo, rest')) =>
            if 0xDC00 <= lo < 0xE000 then
              Some(((0x10000 + (hi - 0xD800) * 0x400 + (lo - 0xDC00)) as char, rest'))
            else None
          case None => None
        else None
      else if 0xDC00 <= hi < 0xE000 then None
      else Some((hi as char, rest))
  }

  /** The character written by the escape that follows a backslash. */
  function ParseEscape(s: string): (r: Option<(char, string)>)
    ensures r.Some? ==> |r.value.1| < |s|
  {
    if s == [] then None
    else if s[0] == '"' then Some(('"', s[1..]))
    else if s[0] == '\\' then Some(('\\', s[1..]))
    else if s[0] == '/' then Some(('/', s[1..]))
    else if s[0] == 'b' then Some((8 as char, s[1..]))
    else if s[0] == 'f' then Some((12 as char, s[1..]))
    else if s[0] == 'n' then Some(('\n', s[1..]))
    else if s[0] == 'r' then Some(('\r', s[1..]))
    else if s[0] == 't' then Some(('\t', s[1..]))
    else if s[0] == 'u' then ParseUnicodeEscape(s[1..])
    else None
  }

  /** One character of a string literal; raw control characters are refused. */
  function ParseStringChar(s: string): (r: Option<(char, string)>)
    requires s != [] && s[0] != '"'
    ensures r.Some? ==> |r.value.1| < |s|
  {
    if s[0] == '\\' then ParseEscape(s[1..])
    else if s[0] < ' ' then None
    else Some((s[0], s[1..]))
  }

  /** The body of a string literal up to its closing quote, and what follows the quote. */
  function ParseStringBody(s: string): (r: Option<(string, string)>)
    ensures r.Some? ==> |r.value.1| < |s|
    decreases |s|
  {
    if s == [] then None
    else if s[0] == '"' then Some(([], s[1..]))
    else match ParseStringChar(s)
      case None => None
      case Some((c, rest)) =>
        match ParseStringBody(rest)
        case None => None
        case Some((t, rest')) => Some(([c] + t, rest'))
  }

  /** The items of a non-empty array and what follows its closing bracket. */
  function ParseItems(s: string): (r: Option<(seq<string>, string)>)
    ensures r.Some? ==> |r.value.0| > 0 && |r.value.1| < |s|
    decreases |s|, 1
  {
    if s == [] || s[0] != '"' then None
    else match ParseStringBody(s[1..])
      case None => None
      case Some((x, rest)) => ParseAfterItem(x, SkipWhitespace(rest))
  }

  /** After item `x`: either the closing bracket or a comma and the remaining items. */
  function ParseAfterItem(x: string, t: string): (r: Option<(seq<string>, string)>)
    ensures r.Some? ==> |r.value.0| > 0 && |r.value.1| < |t|
    decreases |t|, 0
  {
    if t == [] then None
    else if t[0] == ']' then Some(([x], t[1..]))
    else if t[0] == ',' then Prepend(x, ParseItems(SkipWhitespace(t[1..])))
    else None
  }

  function Prepend(x: string, r: Option<(seq<string>, string)>): Option<(seq<string>, string)> {
    match r
    case None => None
    case Some((xs, rest)) => Some(([x] + xs, rest))
  }

  /** `json.loads` of a document holding one array of strings. */
  function Loads(s: string): (xs: Option<seq<string>>)
    ensures xs.Some? ==> SkipWhitespace(s) != [] && SkipWhitespace(s)[0] == '['
  {
    var t := SkipWhitespace(s);
    if t == [] || t[0] != '[' then None
    else
      var u := SkipWhitespace(t[1..]);
      var parsed: Option<(seq<string>, string)> := if u != [] && u[0] == ']' then Some(([], u[1..])) else ParseItems(u);
      match parsed
      case None => None
      case Some((xs, rest)) => if SkipWhitespace(rest) == [] then Some(xs) else None
  }

  // ---------------------------------------------------------------------
  // The column type
  // ---------------------------------------------------------------------

  /** `process_bind_param`: a list is stored as its JSON text, `None` as `None`. */
  function ProcessBindParam(value: Option<seq<string>>): (stored: Option<string>)
    ensures value.None? <==> stored.None?
    ensures stored.Some? ==> AllPrintableAscii(stored.value)
  {
    match value
    case None => None
    case Some(xs) =>
      DumpsIsPrintableAscii(xs);
      Some(Dumps(xs))
  }

  /**
   * `process_result_value`: stored text is parsed back into a list, `None`
   * stays `None`; text that is not a JSON array of strings is a failure.
   */
  function ProcessResultValue(stored: Option<string>): (value: Result<Option<seq<string>>, string>)
    ensures stored.None? ==> value == Success(None)
    ensures stored.Some? && value.Success? ==> value.value.Some?
  {
    match stored
    case None => Success(None)
    case Some(text) =>
      match Loads(text)
      case Some(xs) => Success(Some(xs))
      case None => Failure("stored text is not a JSON array of strings")
  }

  // ---------------------------------------------------------------------
  // Properties
  // ---------------------------------------------------------------------

  /** The serialised list is pure printable ASCII (`ensure_ascii`). */
  lemma DumpsIsPrintableAscii(xs: seq<string>)
    ensures AllPrintableAscii(Dumps(xs))
  {
    JoinQuotedIsPrintableAscii(Quoted(xs));
  }

  lemma {:induction false} JoinQuotedIsPrintableAscii(qs: seq<string>)
    requires forall i :: 0 <= i < |qs| ==> AllPrintableAscii(qs[i])
    ensures AllPrintableAscii(JoinQuoted(qs))
  {
    if |qs| > 1 {
      JoinQuotedIsPrintableAscii(qs[1..]);
    }
  }

  lemma Hex4RoundTrip(n: nat, rest: string)
    requires n < 0x10000
    ensures ParseHex4(Hex4(n) + rest) == Some((n, rest))
  {
    var s := Hex4(n) + rest;
    var q1 := n / 16;
    var q2 := q1 / 16;
    var q3 := q2 / 16;
    assert HexValue(s[0]) == Some(q3);
    assert HexValue(s[1]) == Some(q2 % 16);
    assert HexValue(s[2]) == Some(q1 % 16);
    assert HexValue(s[3]) == Some(n % 16);
    assert ((q3 * 16 + q2 % 16) * 16 + q1 % 16) * 16 + n % 16 == n;
    assert s[4..] == rest;
  }

  lemma ShortEscapeRoundTrip(c: char, rest: string)
    requires |EscapeChar(c)| == 2 && EscapeChar(c)[0] == '\\'
    ensures ParseStringChar(EscapeChar(c) + rest) == Some((c, rest))
  {
    var e := EscapeChar(c);
    assert (e + rest)[1..] == [e[1]] + rest;
  }

  lemma BmpEscapeRoundTrip(c: char, rest: string)
    requires c as int < 0x10000
    ensures ParseStringChar(("\\u" + Hex4(c as int)) + rest) == Some((c, rest))
  {
    var s := ("\\u" + Hex4(c as int)) + rest;
    assert s[1..] == "u" + (Hex4(c as int) + rest);
    assert s[2..] == Hex4(c as int) + rest;
    Hex4RoundTrip(c as int, rest);
  }

  /** A high surrogate escape followed by a low surrogate escape reads as one character. */
  lemma SurrogateEscapesRoundTrip(hi: nat, lo: nat, rest: string)
    requires 0xD800 <= hi < 0xDC00 && 0xDC00 <= lo < 0xE000
    ensures ParseUnicodeEscape(Hex4(hi) + ("\\u" + Hex4(lo) + rest))
         == Some(((0x10000 + (hi - 0xD800) * 0x400 + (lo - 0xDC00)) as char, rest))
  {
    var tail := "\\u" + Hex4(lo) + rest;
    Hex4RoundTrip(hi, tail);
    assert tail[2..] == Hex4(lo) + rest;
    Hex4RoundTrip(lo, rest);
  }

  lemma SurrogatePairRoundTrip(c: char, rest: string)
    requires c as int >= 0x10000
    ensures var v := c as int - 0x10000;
      ParseStringChar(("\\u" + Hex4(0xD800 + v / 0x400) + "\\u" + Hex4(0xDC00 + v % 0x400)) + rest) == Some((c, rest))
  {
    var v := c as int - 0x10000;
    var hi, lo := 0xD800 + v / 0x400, 0xDC00 + v % 0x400;
    var s := ("\\u" + Hex4(hi) + "\\u" + Hex4(lo)) + rest;
    assert s[2..] == Hex4(hi) + ("\\u" + Hex4(lo) + rest);
    SurrogateEscapesRoundTrip(hi, lo, rest);
    assert 0x10000 + (hi - 0xD800) * 0x400 + (lo - 0xDC00) == c as int;
  }

  /** Parsing the escape of a character gives back the character. */
  lemma EscapeCharRoundTrip(c: char, rest: string)
    ensures ParseStringChar(EscapeChar(c) + rest) == Some((c, rest))
  {
    if c == '"' || c == '\\' || c == '\n' || c == '\r' || c == '\t' || c as int == 8 || c as int == 12 {
      ShortEscapeRoundTrip(c, rest);
    } else if IsPrintableAscii(c) {
      assert (EscapeChar(c) + rest)[1..] == rest;
    } else if c as int < 0x10000 {
      BmpEscapeRoundTrip(c, rest);
    } else {
      SurrogatePairRoundTrip(c, rest);
    }
  }

  lemma {:induction false} EscapeStringRoundTrip(s: string, rest: string)
    ensures ParseStringBody(EscapeString(s) + "\"" + rest) == Some((s, rest))
  {
    if s == [] {
      assert EscapeString(s) + "\"" + rest == "\"" + rest;
    } else {
      var after := EscapeString(s[1..]) + "\"" + rest;
      assert EscapeString(s) + "\"" + rest == EscapeChar(s[0]) + after;
      EscapeCharRoundTrip(s[0], after);
      EscapeStringRoundTrip(s[1..], rest);
      assert [s[0]] + s[1..] == s;
    }
  }

  /** `q` is a string literal that reads back as `x`, whatever follows it. */
  ghost predicate ReadsBackAs(q: string, x: string) {
    q != [] && q[0] == '"' &&
    forall tail :: ParseStringBody(q[1..] + tail) == Some((x, tail))
  }

  lemma QuoteStringReadsBack(x: string)
    ensures ReadsBackAs(QuoteString(x), x)
  {
    var q := QuoteString(x);
    forall tail ensures ParseStringBody(q[1..] + tail) == Some((x, tail)) {
      assert q[1..] + tail == EscapeString(x) + "\"" + tail;
      EscapeStringRoundTrip(x, tail);
    }
  }

  lemma SkipNothing(t: string)
    requires t != [] && !IsWhitespace(t[0])
    ensures SkipWhitespace(t) == t
  {
  }

  lemma Reassociate3<T>(a: seq<T>, b: seq<T>, c: seq<T>)
    ensures a + b + c == a + (b + c)
  {
  }

  lemma Reassociate5<T>(a: seq<T>, b: seq<T>, c: seq<T>, d: seq<T>, e: seq<T>)
    ensures a + b + c + d + e == a + (b + (c + d + e))
  {
  }

  lemma DropFirst(q: string, tail: string)
    requires q != []
    ensures (q + tail)[1..] == q[1..] + tail
  {
  }

  /** After the first item, parsing continues at the first non-blank character. */
  lemma FirstItem(q: string, x: string, tail: string)
    requires ReadsBackAs(q, x)
    requires tail != [] && !IsWhitespace(tail[0])
    ensures ParseItems(q + tail) == ParseAfterItem(x, tail)
  {
    DropFirst(q, tail);
    assert ParseStringBody(q[1..] + tail) == Some((x, tail));
    SkipNothing(tail);
  }

  lemma AfterLastItem(x: string, rest: string)
    ensures ParseAfterItem(x, "]" + rest) == Some(([x], rest))
  {
    assert ("]" + rest)[1..] == rest;
  }

  lemma SkipOneSpace(more: string)
    requires more != [] && more[0] == '"'
    ensures SkipWhitespace(" " + more) == more
  {
    assert (" " + more)[1..] == more;
    SkipNothing(more);
  }

  lemma AfterComma(x: string, more: string)
    requires more != [] && more[0] == '"'
    ensures ParseAfterItem(x, ", " + more) == Prepend(x, ParseItems(more))
  {
    var t := ", " + more;
    assert t[0] == ',' && t[1..] == " " + more;
    SkipOneSpace(more);
  }

  lemma JoinQuotedStartsWithQuote(qs: seq<string>)
    requires qs != [] && qs[0] != [] && qs[0][0] == '"'
    ensures JoinQuoted(qs) != [] && JoinQuoted(qs)[0] == '"'
  {
  }

  lemma OneItemRoundTrip(q: string, x: string, rest: string)
    requires ReadsBackAs(q, x)
    ensures ParseItems(JoinQuoted([q]) + "]" + rest) == Some(([x], rest))
  {
    assert JoinQuoted([q]) == q;
    Reassociate3(q, "]", rest);
    FirstItem(q, x, "]" + rest);
    AfterLastItem(x, rest);
  }

  lemma HeadAndTail<T>(s: seq<T>)
    requires s != []
    ensures [s[0]] + s[1..] == s
  {
  }

  lemma JoinQuotedSplit(qs: seq<string>, rest: string)
    requires |qs| > 1
    ensures JoinQuoted(qs) + "]" + rest == qs[0] + (", " + (JoinQuoted(qs[1..]) + "]" + rest))
  {
    assert JoinQuoted(qs) == qs[0] + ", " + JoinQuoted(qs[1..]);
    Reassociate5(qs[0], ", ", JoinQuoted(qs[1..]), "]", rest);
  }

  lemma ItemsStep(qs: seq<string>, xs: seq<string>, rest: string)
    requires |qs| == |xs| > 1
    requires ReadsBackAs(qs[0], xs[0]) && qs[1] != [] && qs[1][0] == '"'
    requires ParseItems(JoinQuoted(qs[1..]) + "]" + rest) == Some((xs[1..], rest))
    ensures ParseItems(JoinQuoted(qs) + "]" + rest) == Some((xs, rest))
  {
    var more := JoinQuoted(qs[1..]) + "]" + rest;
    JoinQuotedStartsWithQuote(qs[1..]);
    assert more != [] && more[0] == '"';
    calc {
      ParseItems(JoinQuoted(qs) + "]" + rest);
      { JoinQuotedSplit(qs, rest); }
      ParseItems(qs[0] + (", " + more));
      { FirstItem(qs[0], xs[0], ", " + more); }
      ParseAfterItem(xs[0], ", " + more);
      { AfterComma(xs[0], more); }
      Prepend(xs[0], ParseItems(more));
      Some(([xs[0]] + xs[1..], rest));
      { HeadAndTail(xs); }
      Some((xs, rest));
    }
  }

  lemma {:induction false} JoinQuotedRoundTrip(qs: seq<string>, xs: seq<string>, rest: string)
    requires |qs| == |xs| > 0
    requires forall i :: 0 <= i < |qs| ==> ReadsBackAs(qs[i], xs[i])
    ensures ParseItems(JoinQuoted(qs) + "]" + rest) == Some((xs, rest))
  {
    if |qs| == 1 {
      assert qs == [qs[0]] && xs == [xs[0]];
      OneItemRoundTrip(qs[0], xs[0], rest);
    } else {
      JoinQuotedRoundTrip(qs[1..], xs[1..], rest);
      ItemsStep(qs, xs, rest);
    }
  }

  /** A document that opens with `["` is read as the items that follow the bracket. */
  lemma LoadsArray(body: string)
    requires body != [] && body[0] == '"'
    ensures Loads("[" + body) ==
            match ParseItems(body)
            case None => None
            case Some((xs, rest)) => if SkipWhitespace(rest) == [] then Some(xs) else None
  {
    var s := "[" + body;
    SkipNothing(s);
    assert s[0] == '[' && s[1..] == body;
    SkipNothing(body);
  }

  lemma LoadsOfItems(body: string, xs: seq<string>)
    requires body != [] && body[0] == '"'
    requires ParseItems(body) == Some((xs, []))
    ensures Loads("[" + body) == Some(xs)
  {
    LoadsArray(body);
    assert SkipWhitespace([]) == [];
  }

  lemma LoadsEmptyList()
    ensures Loads("[]") == Some([])
  {
    SkipNothing("[]");
    assert "[]"[1..] == "]";
    SkipNothing("]");
  }

  /** Reading back what `json.dumps` wrote gives the same list. */
  lemma DumpsRoundTrip(xs: seq<string>)
    ensures Loads(Dumps(xs)) == Some(xs)
  {
    if xs == [] {
      assert Dumps(xs) == "[]";
      LoadsEmptyList();
    } else {
      var qs := Quoted(xs);
      forall i | 0 <= i < |qs| ensures ReadsBackAs(qs[i], xs[i]) {
        QuoteStringReadsBack(xs[i]);
      }
      JoinQuotedRoundTrip(qs, xs, []);
      var body := JoinQuoted(qs) + "]";
      assert Dumps(xs) == "[" + body;
      assert body + [] == body;
      JoinQuotedStartsWithQuote(qs);
      LoadsOfItems(body, xs);
    }
  }

  /** A value bound to the column and read back is the same value, `None` included. */
  lemma ColumnRoundTrip(value: Option<seq<string>>)
    ensures ProcessResultValue(ProcessBindParam(value)) == Success(value)
  {
    if value.Some? {
      DumpsRoundTrip(value.value);
    }
  }
}
