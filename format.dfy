/**
 * The pieces of Go's `fmt` and `strings` packages that the vertex builder relies on:
 * `%d` for integers, `%t` for booleans, `"%s"` quoting and `strings.Join`.
 * Each rendering comes with a reference decoder and a lemma that the decoder reads it back:
 * `ParseDecimal`, `ParseBool` and `ParseQuoted` for the three formats, `Split` for joins of
 * parts free of the separator, and `ParseQuotedList` for comma-joined lists of quoted texts.
 */
module Format {
  import opened Wrappers

  predicate IsDigit(c: char) {
    '0' <= c <= '9'
  }

  predicate AllDigits(s: string) {
    forall i :: 0 <= i < |s| ==> IsDigit(s[i])
  }

  function DigitChar(d: nat): (c: char)
    requires d < 10
    ensures IsDigit(c) && DigitValue(c) == d
  {
    ('0' as int + d) as char
  }

  function DigitValue(c: char): (d: nat)
    requires IsDigit(c)
    ensures d < 10
  {
    c as int - '0' as int
  }

  /** The base-ten digits of `n`, most significant first, with no leading zero. */
  function Digits(n: nat): (s: string)
    ensures |s| > 0 && AllDigits(s)
    ensures s[0] == '0' ==> n == 0
    decreases n
  {
    if n < 10 then [DigitChar(n)] else Digits(n / 10) + [DigitChar(n % 10)]
  }

  /** The number a non-empty run of decimal digits denotes (the reference decoder for `Digits`). */
  function ValueOf(s: string): nat
    requires AllDigits(s)
    decreases |s|
  {
    if s == [] then 0 else ValueOf(s[..|s| - 1]) * 10 + DigitValue(s[|s| - 1])
  }

  lemma {:induction false} DigitsRoundTrip(n: nat)
    ensures ValueOf(Digits(n)) == n
  {
    if n >= 10 {
      DigitsRoundTrip(n / 10);
      var s := Digits(n);
      assert s[..|s| - 1] == Digits(n / 10);
    }
  }

  /** Go's `%d` verb: an optional minus sign followed by the digits of the magnitude. */
  function Decimal(n: int): (s: string)
    ensures |s| > 0 && (n < 0 <==> s[0] == '-')
    ensures forall i :: 0 <= i < |s| ==> s[i] == '-' || IsDigit(s[i])
  {
    if n < 0 then "-" + Digits(-n) else Digits(n)
  }

  /** Reads back an optionally signed decimal literal. */
  function ParseDecimal(s: string): Option<int> {
    if |s| > 1 && s[0] == '-' && AllDigits(s[1..]) then Some(-(ValueOf(s[1..]) as int))
    else if |s| > 0 && AllDigits(s) then Some(ValueOf(s))
    else None
  }

  lemma DecimalRoundTrip(n: int)
    ensures ParseDecimal(Decimal(n)) == Some(n)
  {
    if n < 0 {
      DigitsRoundTrip(-n);
      assert Decimal(n)[1..] == Digits(-n);
    } else {
      DigitsRoundTrip(n);
    }
  }

  /** Two integers render alike exactly when they are equal. */
  lemma DecimalInjective(m: int, n: int)
    ensures Decimal(m) == Decimal(n) <==> m == n
  {
    DecimalRoundTrip(m);
    DecimalRoundTrip(n);
  }

  /** Go's `%t` verb. */
  function BoolText(b: bool): (s: string)
    ensures s == "true" || s == "false"
    ensures (s == "true") == b
  {
    if b then "true" else "false"
  }

  /** Reads back `true` or `false`. */
  function ParseBool(s: string): Option<bool> {
    if s == "true" then Some(true) else if s == "false" then Some(false) else None
  }

  lemma BoolRoundTrip(b: bool)
    ensures ParseBool(BoolText(b)) == Some(b)
  {
  }

  /** The `"%s"` format: the text between two double quotes, nothing escaped. */
  function Quote(s: string): (q: string)
    ensures |q| == |s| + 2 && q[0] == '"' && q[|q| - 1] == '"' && q[1..|q| - 1] == s
  {
    "\"" + s + "\""
  }

  /** Go's `strings.Join`: the parts in order, `sep` between neighbours. */
  function Join(parts: seq<string>, sep: string): (r: string)
    ensures |parts| == 0 ==> r == ""
    ensures |parts| > 0 ==> |parts[0]| <= |r| && r[..|parts[0]|] == parts[0]
    decreases |parts|
  {
    if |parts| == 0 then ""
    else if |parts| == 1 then parts[0]
    else parts[0] + sep + Join(parts[1..], sep)
  }

  /** The position of the first `c` in `s`, if any. */
  function IndexOf(s: string, c: char): (r: Option<nat>)
    ensures r.Some? ==> r.value < |s| && s[r.value] == c && c !in s[..r.value]
    ensures r.None? ==> c !in s
    decreases |s|
  {
    if s == [] then None
    else if s[0] == c then Some(0)
    else match IndexOf(s[1..], c)
      case None => None
      case Some(i) => Some(i + 1)
  }

  /** Go's `strings.Split` for a one-character separator: the pieces between separators, in order. */
  function Split(s: string, sep: char): (r: seq<string>)
    ensures |r| > 0
    decreases |s|
  {
    match IndexOf(s, sep)
    case None => [s]
    case Some(i) => [s[..i]] + Split(s[i + 1..], sep)
  }

  /**
   * Joining a non-empty list of parts that do not hold the separator loses nothing:
   * splitting the result gives back exactly the parts, in order.
   */
  lemma {:induction false} JoinSplitRoundTrip(parts: seq<string>, sep: char)
    requires |parts| > 0
    requires forall i :: 0 <= i < |parts| ==> sep !in parts[i]
    ensures Split(Join(parts, [sep]), sep) == parts
  {
    if |parts| == 1 {
      assert parts == [parts[0]];
    } else {
      var rest := Join(parts[1..], [sep]);
      var s := Join(parts, [sep]);
      assert s == parts[0] + [sep] + rest;
      IndexOfFirst(parts[0], sep, rest);
      assert s[..|parts[0]|] == parts[0];
      assert s[|parts[0]| + 1..] == rest;
      JoinSplitRoundTrip(parts[1..], sep);
      assert [parts[0]] + parts[1..] == parts;
    }
  }

  /** Reads a quoted text from the front of `s`, giving the text and what follows the closing quote. */
  function ParseQuoted(s: string): (r: Option<(string, string)>)
    ensures r.Some? ==> |r.value.1| < |s|
  {
    if |s| > 0 && s[0] == '"' then
      match IndexOf(s[1..], '"')
      case None => None
      case Some(j) => Some((s[1..1 + j], s[2 + j..]))
    else None
  }

  lemma {:induction false} IndexOfFirst(k: string, c: char, t: string)
    requires c !in k
    ensures IndexOf(k + [c] + t, c) == Some(|k|)
  {
    if k != [] {
      assert (k + [c] + t)[1..] == k[1..] + [c] + t;
      IndexOfFirst(k[1..], c, t);
    }
  }

  /** A text holding no double quote is read back whole from its quoted form, whatever follows it. */
  lemma QuotedRoundTrip(k: string, t: string)
    requires '"' !in k
    ensures ParseQuoted(Quote(k) + t) == Some((k, t))
  {
    var s := Quote(k) + t;
    assert s[1..] == k + ['"'] + t;
    IndexOfFirst(k, '"', t);
    assert s[1..1 + |k|] == k;
    assert s[2 + |k|..] == t;
  }

  /** Reads a comma-separated, non-empty list of quoted texts. */
  function ParseQuotedList(s: string): Option<seq<string>>
    decreases |s|
  {
    match ParseQuoted(s)
    case None => None
    case Some((k, rest)) =>
      if rest == [] then Some([k])
      else if rest[0] == ',' then
        match ParseQuotedList(rest[1..])
        case None => None
        case Some(ks) => Some([k] + ks)
      else None
  }

  /** Every text, quoted. */
  function QuoteAll(keys: seq<string>): (q: seq<string>)
    ensures |q| == |keys| && forall i :: 0 <= i < |keys| ==> q[i] == Quote(keys[i])
  {
    seq(|keys|, i requires 0 <= i < |keys| => Quote(keys[i]))
  }

  /** A quoted text followed by a comma reads as that text in front of the list that follows. */
  lemma QuotedListCons(k: string, rest: string)
    requires '"' !in k
    ensures ParseQuotedList(Quote(k) + ("," + rest)) ==
      if ParseQuotedList(rest).Some? then Some([k] + ParseQuotedList(rest).value) else None
  {
    QuotedRoundTrip(k, "," + rest);
    assert ("," + rest)[1..] == rest;
  }

  /**
   * Quoting texts that hold no double quote and joining them with commas loses nothing:
   * the list reads back as exactly the texts given, in order.
   */
  lemma {:induction false} QuotedListRoundTrip(keys: seq<string>)
    requires |keys| > 0
    requires forall i :: 0 <= i < |keys| ==> '"' !in keys[i]
    ensures ParseQuotedList(Join(QuoteAll(keys), ",")) == Some(keys)
  {
    var q := QuoteAll(keys);
    if |keys| == 1 {
      QuotedRoundTrip(keys[0], "");
      assert Quote(keys[0]) + "" == Quote(keys[0]) == Join(q, ",");
      assert keys == [keys[0]];
    } else {
      var rest := Join(QuoteAll(keys[1..]), ",");
      assert q[1..] == QuoteAll(keys[1..]);
      assert Join(q, ",") == Quote(keys[0]) + ("," + rest);
      QuotedListCons(keys[0], rest);
      QuotedListRoundTrip(keys[1..]);
      assert [keys[0]] + keys[1..] == keys;
    }
  }
}
