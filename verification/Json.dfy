/** The JSON texts that cross the queue: what JSON.stringify writes and JSON.parse reads. */
module Json {

  datatype Value =
    | Null
    | Bool(b: bool)
    | Num(n: int)
    | Dec(number: Decimal)
    | Str(s: string)
    | Arr(items: Items)
    | Obj(members: Members)

  datatype Exponent = NoExp | Exp(power: int)

  /**
   A number that JSON.stringify does not write as a plain integer, by the digits it writes (section 6
   of RFC 8259).
   */
  datatype Digits = Digits(negative: bool, whole: nat, fraction: string, exponent: Exponent)

  predicate IsDecimal(d: Digits) {
    && (forall c | c in d.fraction :: IsDigit(c))
    && (d.fraction != "" || d.exponent.Exp?)
  }

  type Decimal = d: Digits | IsDecimal(d) witness Digits(false, 0, "5", NoExp)

  datatype Items = NoItems | Items(head: Value, tail: Items)

  datatype Members = NoMembers | Members(key: string, value: Value, tail: Members)

  datatype Parsed<+T> = Bad | Got(value: T, rest: string)

  const DIGITS: string := "0123456789abcdef"

  // ---- decimal numbers ----

  predicate IsDigit(c: char) {
    '0' <= c <= '9'
  }

  function PrintNat(n: nat): (s: string)
    ensures |s| > 0
    ensures forall c | c in s :: IsDigit(c)
  {
    if n < 10 then [DIGITS[n]] else PrintNat(n / 10) + [DIGITS[n % 10]]
  }

  function PrintInt(n: int): string {
    if n < 0 then "-" + PrintNat(-n) else PrintNat(n)
  }

  function Sign(negative: bool): string {
    if negative then "-" else ""
  }

  function FractionText(fraction: string): string {
    if fraction == "" then "" else "." + fraction
  }

  function ExponentText(e: Exponent): string {
    match e
    case NoExp => ""
    case Exp(n) => if n < 0 then "e-" + PrintNat(-n) else "e+" + PrintNat(n)
  }

  function PrintDecimal(d: Decimal): string {
    Sign(d.negative) + PrintNat(d.whole) + (FractionText(d.fraction) + ExponentText(d.exponent))
  }

  function DigitValue(c: char): nat
    requires IsDigit(c)
  {
    c as int - '0' as int
  }

  /** The value of a run of digits, most significant first. */
  function ReadNat(s: string): nat
    requires forall c | c in s :: IsDigit(c)
  {
    if s == "" then 0 else 10 * ReadNat(s[..|s| - 1]) + DigitValue(s[|s| - 1])
  }

  /** The longest run of digits that t starts with. */
  function LeadingDigits(t: string): (d: string)
    ensures d <= t
    ensures forall c | c in d :: IsDigit(c)
  {
    if t == "" || !IsDigit(t[0]) then "" else [t[0]] + LeadingDigits(t[1..])
  }

  lemma {:induction false} ReadPrintedNat(n: nat)
    ensures ReadNat(PrintNat(n)) == n
  {
    if n >= 10 {
      ReadPrintedNat(n / 10);
      var s := PrintNat(n);
      assert s[..|s| - 1] == PrintNat(n / 10);
    } else {
      assert PrintNat(n)[..0] == "";
    }
  }

  lemma {:induction false} LeadingDigitsStop(d: string, rest: string)
    requires forall c | c in d :: IsDigit(c)
    requires rest == "" || !IsDigit(rest[0])
    ensures LeadingDigits(d + rest) == d
  {
    if d == "" {
      assert d + rest == rest;
    } else {
      LeadingDigitsStop(d[1..], rest);
      assert (d + rest)[1..] == d[1..] + rest;
    }
  }

  // ---- strings ----

  /** One character inside a string literal, as JSON.stringify writes it. */
  function Escape(c: char): (s: string)
    ensures |s| > 0
  {
    if c == '\"' then "\\\""
    else if c == '\\' then "\\\\"
    else if c == '\U{8}' then "\\b"
    else if c == '\t' then "\\t"
    else if c == '\n' then "\\n"
    else if c == '\U{C}' then "\\f"
    else if c == '\r' then "\\r"
    else if c < ' ' then "\\u00" + [DIGITS[c as int / 16], DIGITS[c as int % 16]]
    else [c]
  }

  function Escaped(s: string): string {
    if s == "" then "" else Escape(s[0]) + Escaped(s[1..])
  }

  function Quote(s: string): string {
    "\"" + Escaped(s) + "\""
  }

  function HexValue(c: char): (v: int)
    ensures -1 <= v < 16
  {
    if '0' <= c <= '9' then (c - '0') as int
    else if 'a' <= c <= 'f' then (c - 'a') as int + 10
    else -1
  }

  /** The character an escape sequence stands for, t being the text after the backslash. */
  function Unescape(t: string): (r: Parsed<char>)
    ensures r.Got? ==> |r.rest| < |t|
  {
    if t == "" then Bad
    else if t[0] == '\"' || t[0] == '\\' then Got(t[0], t[1..])
    else if t[0] == 'b' then Got('\U{8}', t[1..])
    else if t[0] == 't' then Got('\t', t[1..])
    else if t[0] == 'n' then Got('\n', t[1..])
    else if t[0] == 'f' then Got('\U{C}', t[1..])
    else if t[0] == 'r' then Got('\r', t[1..])
    else if |t| >= 5 && t[..3] == "u00" && HexValue(t[3]) >= 0 && HexValue(t[4]) >= 0 then
      Got((16 * HexValue(t[3]) + HexValue(t[4])) as char, t[5..])
    else Bad
  }

  /** Reads a string literal, t being the text after the opening quote. */
  function ParseString(t: string): (r: Parsed<string>)
    ensures r.Got? ==> |r.rest| < |t|
  {
    if t == "" then Bad
    else if t[0] == '\"' then Got("", t[1..])
    else if t[0] == '\\' then
      match Unescape(t[1..]) {
        case Bad => Bad
        case Got(c, rest) =>
          match ParseString(rest) {
            case Bad => Bad
            case Got(s, after) => Got([c] + s, after)
          }
      }
    else if t[0] < ' ' then Bad
    else
      match ParseString(t[1..]) {
        case Bad => Bad
        case Got(s, after) => Got([t[0]] + s, after)
      }
  }

  lemma UnescapeEscaped(c: char, rest: string)
    requires Escape(c)[0] == '\\'
    ensures Unescape((Escape(c) + rest)[1..]) == Got(c, rest)
  {
    var t := (Escape(c) + rest)[1..];
    if |Escape(c)| == 2 {
      assert t == [Escape(c)[1]] + rest;
    } else {
      var n := c as int;
      assert t == "u00" + [DIGITS[n / 16], DIGITS[n % 16]] + rest;
      assert t[..3] == "u00" && t[5..] == rest;
      HexDigit(n / 16);
      HexDigit(n % 16);
      assert 16 * (n / 16) + n % 16 == n;
    }
  }

  lemma HexDigit(d: nat)
    requires d < 16
    ensures HexValue(DIGITS[d]) == d
  {
    assert DIGITS == ['0', '1', '2', '3', '4', '5', '6', '7', '8', '9', 'a', 'b', 'c', 'd', 'e', 'f'];
  }

  /** A character as it was written reads back, and the rest of the literal after it. */
  lemma ReadEscaped(c: char, more: string)
    ensures ParseString(Escape(c) + more) ==
            match ParseString(more) { case Bad => Bad case Got(s, after) => Got([c] + s, after) }
  {
    var t := Escape(c) + more;
    assert t[0] == Escape(c)[0];
    if Escape(c)[0] == '\\' {
      UnescapeEscaped(c, more);
    } else {
      assert t[1..] == more;
    }
  }

  lemma {:induction false} ParseQuoted(s: string, rest: string)
    ensures ParseString(Escaped(s) + "\"" + rest) == Got(s, rest)
  {
    if s == "" {
      assert Escaped(s) + "\"" + rest == "\"" + rest;
    } else {
      var more := Escaped(s[1..]) + "\"" + rest;
      assert Escaped(s) + "\"" + rest == Escape(s[0]) + more;
      ParseQuoted(s[1..], rest);
      ReadEscaped(s[0], more);
      assert [s[0]] + s[1..] == s;
    }
  }

  // ---- values ----

  /** JSON.stringify. */
  function Text(v: Value): string {
    match v
    case Null => "null"
    case Bool(b) => if b then "true" else "false"
    case Num(n) => PrintInt(n)
    case Dec(d) => PrintDecimal(d)
    case Str(s) => Quote(s)
    case Arr(NoItems) => "[]"
    case Arr(items) => "[" + ItemsText(items)
    case Obj(NoMembers) => "{}"
    case Obj(members) => "{" + MembersText(members)
  }

  function ItemsText(items: Items): string
    requires items.Items?
  {
    Text(items.head) + (if items.tail.NoItems? then "]" else "," + ItemsText(items.tail))
  }

  function MembersText(members: Members): string
    requires members.Members?
  {
    Quote(members.key) + ":" + Text(members.value) +
    (if members.tail.NoMembers? then "}" else "," + MembersText(members.tail))
  }

  function Literal(t: string, word: string, v: Value): (r: Parsed<Value>)
    requires |word| > 0
    ensures r.Got? ==> |r.rest| < |t|
  {
    if word <= t then Got(v, t[|word|..]) else Bad
  }

  /** The digits after a decimal point, if t starts with one. */
  function ParseFraction(t: string): (r: Parsed<string>)
    ensures r.Got? ==> |r.rest| <= |t| && forall c | c in r.value :: IsDigit(c)
  {
    if t == "" || t[0] != '.' then Got("", t)
    else
      var f := LeadingDigits(t[1..]);
      if f == "" then Bad else Got(f, t[1..][|f|..])
  }

  /** The exponent, if t starts with one. */
  function ParseExponent(t: string): (r: Parsed<Exponent>)
    ensures r.Got? ==> |r.rest| <= |t|
  {
    if t == "" || (t[0] != 'e' && t[0] != 'E') then Got(NoExp, t)
    else
      var signed := |t| > 1 && (t[1] == '+' || t[1] == '-');
      var body := if signed then t[2..] else t[1..];
      var d := LeadingDigits(body);
      if d == "" then Bad
      else
        var n: int := ReadNat(d);
        Got(Exp(if signed && t[1] == '-' then -n else n), body[|d|..])
  }

  /** The number these digits are. */
  function NumberOf(negative: bool, whole: nat, fraction: string, exponent: Exponent): Value
    requires forall c | c in fraction :: IsDigit(c)
  {
    if fraction == "" && exponent.NoExp? then Num(if negative then -(whole as int) else whole)
    else Dec(Digits(negative, whole, fraction, exponent))
  }

  function ParseNumber(t: string): (r: Parsed<Value>)
    requires t != ""
    ensures r.Got? ==> |r.rest| < |t|
  {
    var negative := t[0] == '-';
    var body := if negative then t[1..] else t;
    var d := LeadingDigits(body);
    if d == "" then Bad
    else
      match ParseFraction(body[|d|..]) {
        case Bad => Bad
        case Got(f, more) =>
          match ParseExponent(more) {
            case Bad => Bad
            case Got(e, rest) => Got(NumberOf(negative, ReadNat(d), f, e), rest)
          }
      }
  }

  /** Reads one value off the front of t. */
  function ParseValue(t: string): (r: Parsed<Value>)
    ensures r.Got? ==> |r.rest| < |t|
    decreases |t|, 0
  {
    if t == "" then Bad
    else if t[0] == 'n' then Literal(t, "null", Null)
    else if t[0] == 't' then Literal(t, "true", Bool(true))
    else if t[0] == 'f' then Literal(t, "false", Bool(false))
    else if t[0] == '\"' then
      match ParseString(t[1..]) {
        case Bad => Bad
        case Got(s, rest) => Got(Str(s), rest)
      }
    else if t[0] == '-' || IsDigit(t[0]) then ParseNumber(t)
    else if t[0] == '[' then
      if "[]" <= t then Got(Arr(NoItems), t[2..])
      else
        match ParseItems(t[1..]) {
          case Bad => Bad
          case Got(items, rest) => Got(Arr(items), rest)
        }
    else if t[0] == '{' then
      if "{}" <= t then Got(Obj(NoMembers), t[2..])
      else
        match ParseMembers(t[1..]) {
          case Bad => Bad
          case Got(members, rest) => Got(Obj(members), rest)
        }
    else Bad
  }

  function ParseItems(t: string): (r: Parsed<Items>)
    ensures r.Got? ==> |r.rest| < |t|
    decreases |t|, 1
  {
    match ParseValue(t)
    case Bad => Bad
    case Got(v, rest) =>
      if rest == "" then Bad
      else if rest[0] == ']' then Got(Items(v, NoItems), rest[1..])
      else if rest[0] != ',' then Bad
      else
        match ParseItems(rest[1..]) {
          case Bad => Bad
          case Got(items, after) => Got(Items(v, items), after)
        }
  }

  function ParseMembers(t: string): (r: Parsed<Members>)
    ensures r.Got? ==> |r.rest| < |t|
    decreases |t|, 1
  {
    if t == "" || t[0] != '\"' then Bad
    else
      match ParseString(t[1..]) {
        case Bad => Bad
        case Got(k, colon) =>
          if colon == "" || colon[0] != ':' then Bad
          else
            match ParseValue(colon[1..]) {
              case Bad => Bad
              case Got(v, rest) =>
                if rest == "" then Bad
                else if rest[0] == '}' then Got(Members(k, v, NoMembers), rest[1..])
                else if rest[0] != ',' then Bad
                else
                  match ParseMembers(rest[1..]) {
                    case Bad => Bad
                    case Got(members, after) => Got(Members(k, v, members), after)
                  }
            }
      }
  }

  /** JSON.parse: the whole text must be one value. */
  function Parse(t: string): Parsed<Value> {
    match ParseValue(t)
    case Bad => Bad
    case Got(v, rest) => if rest == "" then Got(v, "") else Bad
  }

  /** What can follow a number in a JSON text. */
  predicate EndsNumber(rest: string) {
    rest == "" || (!IsDigit(rest[0]) && rest[0] != '.' && rest[0] != 'e' && rest[0] != 'E')
  }

  lemma {:induction false} ParsePrefix(v: Value, rest: string)
    requires EndsNumber(rest)
    ensures ParseValue(Text(v) + rest) == Got(v, rest)
    decreases v, 0
  {
    match v
    case Null => ParseWord("null", rest);
    case Bool(b) => ParseWord(Text(v), rest);
    case Num(n) => ParsePrintedNumber(n, rest);
    case Dec(d) => ParsePrintedDecimal(d, rest);
    case Str(s) => ParsePrintedString(s, rest);
    case Arr(items) =>
      if items.NoItems? {
        ParseEmpty(v, rest);
      } else {
        ParsePrintedArray(items, rest);
      }
    case Obj(members) =>
      if members.NoMembers? {
        ParseEmpty(v, rest);
      } else {
        ParsePrintedObject(members, rest);
      }
  }

  lemma ParsePrintedString(s: string, rest: string)
    ensures ParseValue(Quote(s) + rest) == Got(Str(s), rest)
  {
    ParseQuoted(s, rest);
    Drop("\"", Escaped(s), "\"", rest);
    StringIsValue(Quote(s) + rest);
  }

  lemma StringIsValue(t: string)
    requires t != "" && t[0] == '\"'
    ensures ParseValue(t) ==
            match ParseString(t[1..]) { case Bad => Bad case Got(s, rest) => Got(Str(s), rest) }
  {
  }

  /** Texts in pieces: the first character off, and where the brackets are does not matter. */
  lemma Drop(c: string, a: string, b: string, rest: string)
    requires |c| == 1
    ensures (c + a + b + rest)[0] == c[0] && (c + a + b + rest)[1..] == a + b + rest
    ensures (c + a + rest)[0] == c[0] && (c + a + rest)[1..] == a + rest
    ensures (c + rest)[0] == c[0] && (c + rest)[1..] == rest
  {
  }

  lemma Regroup(a: string, b: string, c: string)
    ensures a + b + c == a + (b + c)
  {
  }

  lemma ParseEmpty(v: Value, rest: string)
    requires v == Arr(NoItems) || v == Obj(NoMembers)
    ensures ParseValue(Text(v) + rest) == Got(v, rest)
  {
    assert ("[]" + rest)[2..] == rest && ("{}" + rest)[2..] == rest;
  }

  lemma {:induction false} ParsePrintedArray(items: Items, rest: string)
    requires items.Items?
    ensures ParseValue("[" + ItemsText(items) + rest) == Got(Arr(items), rest)
    decreases items, 2
  {
    ParseItemsPrefix(items, rest);
    ValueStart(items.head);
    ParseArray(ItemsText(items), rest);
  }

  lemma {:induction false} ParsePrintedObject(members: Members, rest: string)
    requires members.Members?
    ensures ParseValue("{" + MembersText(members) + rest) == Got(Obj(members), rest)
    decreases members, 2
  {
    ParseMembersPrefix(members, rest);
    ParseObject(MembersText(members), rest);
  }

  lemma ParseWord(word: string, rest: string)
    requires word == "null" || word == "true" || word == "false"
    ensures ParseValue(word + rest) == Got(if word == "null" then Null else Bool(word == "true"), rest)
  {
    var t := word + rest;
    assert t[|word|..] == rest;
    assert t[0] == word[0];
  }

  lemma ParseArray(body: string, rest: string)
    requires body != "" && body[0] != ']'
    ensures ParseValue("[" + body + rest) ==
            match ParseItems(body + rest) { case Bad => Bad case Got(items, r) => Got(Arr(items), r) }
  {
    var t := "[" + body + rest;
    assert t[1..] == body + rest;
    assert t[0] == '[' && t[1] == body[0];
  }

  lemma ParseObject(body: string, rest: string)
    requires body != "" && body[0] == '\"'
    ensures ParseValue("{" + body + rest) ==
            match ParseMembers(body + rest) { case Bad => Bad case Got(members, r) => Got(Obj(members), r) }
  {
    var t := "{" + body + rest;
    assert t[1..] == body + rest;
    assert t[0] == '{' && t[1] == body[0];
  }

  lemma Behind(d: string, rest: string)
    ensures (d + rest)[|d|..] == rest
    ensures d != "" ==> (d + rest)[0] == d[0]
  {
  }

  lemma FractionBack(f: string, rest: string)
    requires forall c | c in f :: IsDigit(c)
    requires rest == "" || (!IsDigit(rest[0]) && rest[0] != '.')
    ensures ParseFraction(FractionText(f) + rest) == Got(f, rest)
    ensures var t := FractionText(f) + rest; t == "" || !IsDigit(t[0])
  {
    if f == "" {
      assert FractionText(f) + rest == rest;
    } else {
      Drop(".", f, "", rest);
      LeadingDigitsStop(f, rest);
      Behind(f, rest);
    }
  }

  lemma DropTwo(c: string, a: string, rest: string)
    requires |c| == 2
    ensures var t := c + a + rest; |t| >= 2 && t[0] == c[0] && t[1] == c[1] && t[2..] == a + rest
  {
  }

  lemma PowerRead(t: string, negative: bool, d: string, rest: string)
    requires |t| >= 2 && t[0] == 'e' && t[1] == (if negative then '-' else '+') && t[2..] == d + rest
    requires d != "" && (forall c | c in d :: IsDigit(c)) && LeadingDigits(d + rest) == d && (d + rest)[|d|..] == rest
    ensures ParseExponent(t) == Got(Exp(if negative then -(ReadNat(d) as int) else ReadNat(d)), rest)
  {
  }

  lemma PowerBack(n: int, rest: string)
    requires EndsNumber(rest)
    ensures ParseExponent(ExponentText(Exp(n)) + rest) == Got(Exp(n), rest)
    ensures (ExponentText(Exp(n)) + rest)[0] == 'e'
  {
    var d := PrintNat(if n < 0 then -n else n);
    DropTwo(if n < 0 then "e-" else "e+", d, rest);
    LeadingDigitsStop(d, rest);
    Behind(d, rest);
    ReadPrintedNat(if n < 0 then -n else n);
    PowerRead(ExponentText(Exp(n)) + rest, n < 0, d, rest);
  }

  lemma ExponentBack(e: Exponent, rest: string)
    requires EndsNumber(rest)
    ensures ParseExponent(ExponentText(e) + rest) == Got(e, rest)
    ensures var t := ExponentText(e) + rest; t == "" || (!IsDigit(t[0]) && t[0] != '.')
  {
    match e
    case NoExp => assert ExponentText(e) + rest == rest;
    case Exp(n) => PowerBack(n, rest);
  }

  lemma NumberRead(t: string, negative: bool, d: string, tail: string, f: string, more: string, e: Exponent,
                   rest: string)
    requires t != "" && (t[0] == '-' <==> negative) && (if negative then t[1..] else t) == d + tail
    requires d != "" && (forall c | c in d :: IsDigit(c)) && LeadingDigits(d + tail) == d && (d + tail)[|d|..] == tail
    requires (forall c | c in f :: IsDigit(c)) && ParseFraction(tail) == Got(f, more) && ParseExponent(more) == Got(e, rest)
    ensures ParseNumber(t) == Got(NumberOf(negative, ReadNat(d), f, e), rest)
  {
  }

  lemma SignDrops(negative: bool, body: string)
    requires body != "" && body[0] != '-'
    ensures var t := Sign(negative) + body;
            t != "" && (t[0] == '-' <==> negative) && (if negative then t[1..] else t) == body
  {
    assert "" + body == body;
  }

  /** A number's text, piece by piece. */
  lemma ParseDigits(negative: bool, d: string, f: string, e: Exponent, rest: string)
    requires d != "" && (forall c | c in d :: IsDigit(c)) && (forall c | c in f :: IsDigit(c)) && EndsNumber(rest)
    ensures ParseNumber(Sign(negative) + d + (FractionText(f) + (ExponentText(e) + rest)))
         == Got(NumberOf(negative, ReadNat(d), f, e), rest)
  {
    var more := ExponentText(e) + rest;
    var tail := FractionText(f) + more;
    ExponentBack(e, rest);
    FractionBack(f, more);
    LeadingDigitsStop(d, tail);
    Behind(d, tail);
    assert d[0] in d;
    SignDrops(negative, d + tail);
    Regroup(Sign(negative), d, tail);
    NumberRead(Sign(negative) + d + tail, negative, d, tail, f, more, e, rest);
  }

  lemma NumberIsValue(t: string)
    requires t != "" && (t[0] == '-' || IsDigit(t[0]))
    ensures ParseValue(t) == ParseNumber(t)
  {
    assert t[0] != 'n' && t[0] != 't' && t[0] != 'f' && t[0] != '\"';
  }

  lemma PlainNumber(n: int, rest: string)
    ensures PrintInt(n) == Sign(n < 0) + PrintNat(if n < 0 then -n else n)
    ensures FractionText("") + (ExponentText(NoExp) + rest) == rest
  {
    assert n >= 0 ==> "" + PrintNat(n) == PrintNat(n);
  }

  lemma ParsePrintedNumber(n: int, rest: string)
    requires EndsNumber(rest)
    ensures ParseValue(PrintInt(n) + rest) == Got(Num(n), rest)
  {
    var m := if n < 0 then -n else n;
    var t := PrintInt(n) + rest;
    PlainNumber(n, rest);
    NumberStart(n);
    assert t[0] == PrintInt(n)[0];
    NumberIsValue(t);
    ReadPrintedNat(m);
    ParseDigits(n < 0, PrintNat(m), "", NoExp, rest);
  }

  lemma ParsePrintedDecimal(d: Decimal, rest: string)
    requires EndsNumber(rest)
    ensures ParseValue(PrintDecimal(d) + rest) == Got(Dec(d), rest)
  {
    var t := PrintDecimal(d) + rest;
    var front := Sign(d.negative) + PrintNat(d.whole);
    Regroup(front, FractionText(d.fraction) + ExponentText(d.exponent), rest);
    Regroup(FractionText(d.fraction), ExponentText(d.exponent), rest);
    DecimalStart(d);
    assert t[0] == PrintDecimal(d)[0];
    NumberIsValue(t);
    ReadPrintedNat(d.whole);
    ParseDigits(d.negative, PrintNat(d.whole), d.fraction, d.exponent, rest);
  }

  lemma DecimalStart(d: Decimal)
    ensures PrintDecimal(d) != "" && (PrintDecimal(d)[0] == '-' || IsDigit(PrintDecimal(d)[0]))
  {
    assert PrintNat(d.whole)[0] in PrintNat(d.whole);
    if !d.negative {
      assert PrintDecimal(d)[0] == PrintNat(d.whole)[0];
    }
  }

  lemma NumberStart(n: int)
    ensures PrintInt(n) != "" && (PrintInt(n)[0] == '-' || IsDigit(PrintInt(n)[0]))
  {
    if n >= 0 {
      assert PrintNat(n)[0] in PrintNat(n);
    }
  }

  /** One item, given that its text reads back. */
  lemma ParseItem(v: Value, value: string, after: string)
    requires after != "" && ParseValue(value + after) == Got(v, after)
    ensures ParseItems(value + after) ==
            if after[0] == ']' then Got(Items(v, NoItems), after[1..])
            else if after[0] != ',' then Bad
            else match ParseItems(after[1..]) {
                   case Bad => Bad
                   case Got(items, rest) => Got(Items(v, items), rest)
                 }
  {
  }

  lemma {:induction false} ParseItemsPrefix(items: Items, rest: string)
    requires items.Items?
    ensures ParseItems(ItemsText(items) + rest) == Got(items, rest)
    decreases items, 1
  {
    if items.tail.NoItems? {
      ParsePrefix(items.head, "]" + rest);
      ParseItem(items.head, Text(items.head), "]" + rest);
      Regroup(Text(items.head), "]", rest);
      Drop("]", "", "", rest);
    } else {
      var more := ItemsText(items.tail);
      ParsePrefix(items.head, "," + more + rest);
      ParseItem(items.head, Text(items.head), "," + more + rest);
      Regroup(Text(items.head), "," + more, rest);
      Drop(",", more, "", rest);
      ParseItemsPrefix(items.tail, rest);
    }
  }

  lemma ParseKey(k: string, value: string, after: string)
    ensures var t := Quote(k) + ":" + value + after;
            t[0] == '\"' && ParseString(t[1..]) == Got(k, ":" + (value + after))
  {
    var t := Quote(k) + ":" + value + after;
    var colon := ":" + (value + after);
    assert t[1..] == Escaped(k) + "\"" + colon;
    ParseQuoted(k, colon);
  }

  /** One member, given that its value's text reads back. */
  lemma ParseMember(k: string, v: Value, value: string, after: string)
    requires after != "" && ParseValue(value + after) == Got(v, after)
    ensures ParseMembers(Quote(k) + ":" + value + after) ==
            if after[0] == '}' then Got(Members(k, v, NoMembers), after[1..])
            else if after[0] != ',' then Bad
            else match ParseMembers(after[1..]) {
                   case Bad => Bad
                   case Got(members, rest) => Got(Members(k, v, members), rest)
                 }
  {
    ParseKey(k, value, after);
    assert (":" + (value + after))[1..] == value + after;
  }

  lemma {:induction false} ParseMembersPrefix(members: Members, rest: string)
    requires members.Members?
    ensures ParseMembers(MembersText(members) + rest) == Got(members, rest)
    decreases members, 1
  {
    var front := Quote(members.key) + ":" + Text(members.value);
    if members.tail.NoMembers? {
      ParsePrefix(members.value, "}" + rest);
      ParseMember(members.key, members.value, Text(members.value), "}" + rest);
      Regroup(front, "}", rest);
      Drop("}", "", "", rest);
    } else {
      var more := MembersText(members.tail);
      ParsePrefix(members.value, "," + more + rest);
      ParseMember(members.key, members.value, Text(members.value), "," + more + rest);
      Regroup(front, "," + more, rest);
      Drop(",", more, "", rest);
      ParseMembersPrefix(members.tail, rest);
    }
  }

  /** JSON.parse(JSON.stringify(v)) is v. */
  lemma ParseText(v: Value)
    ensures Parse(Text(v)) == Got(v, "")
  {
    assert Text(v) + "" == Text(v);
    ParsePrefix(v, "");
  }

  /** How a JSON text can begin (section 2 of RFC 8259). */
  predicate StartsLikeJson(t: string) {
    t != "" && (t[0] in "{[\"-" || IsDigit(t[0]) || "null" <= t || "true" <= t || "false" <= t)
  }

  lemma ValueStart(v: Value)
    ensures StartsLikeJson(Text(v)) && Text(v)[0] != ']'
  {
    if v.Num? && v.n >= 0 {
      assert PrintNat(v.n)[0] in PrintNat(v.n);
    } else if v.Dec? {
      DecimalStart(v.number);
    }
  }

  /** Nothing that JSON.parse accepts begins otherwise. */
  lemma ParsedStart(t: string)
    requires Parse(t).Got?
    ensures StartsLikeJson(t)
  {
  }
}
