/** Decimal printing, joining and splitting, as fmt and strings do them. */
module Text {

  /** The text of %d for a natural number. */
  function Decimal(n: nat): (s: string)
    ensures |s| > 0
    ensures forall i :: 0 <= i < |s| ==> '0' <= s[i] <= '9'
  {
    if n < 10 then ['0' + n as char] else Decimal(n / 10) + ['0' + (n % 10) as char]
  }

  function DigitValue(c: char): nat {
    if '0' <= c <= '9' then (c - '0') as nat else 0
  }

  function ParseDecimal(s: string): nat {
    if s == "" then 0 else 10 * ParseDecimal(s[..|s| - 1]) + DigitValue(s[|s| - 1])
  }

  lemma {:induction false} DecimalRoundTrip(n: nat)
    ensures ParseDecimal(Decimal(n)) == n
  {
    var s := Decimal(n);
    if n < 10 {
      assert s[..0] == "";
    } else {
      DecimalRoundTrip(n / 10);
      assert s[..|s| - 1] == Decimal(n / 10);
    }
  }

  lemma DecimalIsInjective(m: nat, n: nat)
    requires Decimal(m) == Decimal(n)
    ensures m == n
  {
    DecimalRoundTrip(m);
    DecimalRoundTrip(n);
  }

  /** A text of digits without a leading zero is the text of its value. */
  lemma {:induction false} CanonicalText(s: string)
    requires s != "" && s[0] != '0' && forall i :: 0 <= i < |s| ==> '0' <= s[i] <= '9'
    ensures ParseDecimal(s) > 0 && Decimal(ParseDecimal(s)) == s
  {
    var init, last := s[..|s| - 1], s[|s| - 1];
    if |s| == 1 {
      assert init == "" && s == [last];
    } else {
      CanonicalText(init);
      assert s == init + [last];
      assert ParseDecimal(s) / 10 == ParseDecimal(init) && ParseDecimal(s) % 10 == DigitValue(last);
    }
  }

  lemma {:induction false} FirstDigitOfPositive(n: nat)
    requires n > 0
    ensures '1' <= Decimal(n)[0] <= '9'
  {
    if n >= 10 {
      FirstDigitOfPositive(n / 10);
    }
  }

  function Pow10(k: nat): nat { if k == 0 then 1 else 10 * Pow10(k - 1) }

  lemma {:induction false} DecimalLength(n: nat, k: nat)
    requires k >= 1 && n < Pow10(k)
    ensures |Decimal(n)| <= k
  {
    if n >= 10 {
      assert k > 1;
      DecimalLength(n / 10, k - 1);
    }
  }

  function Join(parts: seq<string>, sep: char): string
    requires parts != []
  {
    if |parts| == 1 then parts[0] else parts[0] + [sep] + Join(parts[1..], sep)
  }

  /** strings.Split with a one-character separator. */
  function Split(s: string, sep: char): (parts: seq<string>)
    ensures parts != []
  {
    if s == "" then [""]
    else
      var rest := Split(s[1..], sep);
      if s[0] == sep then [""] + rest else [[s[0]] + rest[0]] + rest[1..]
  }

  lemma {:induction false} SplitOfPrefix(w: string, rest: string, sep: char)
    requires sep !in w
    ensures Split(w, sep) == [w]
    ensures Split(w + [sep] + rest, sep) == [w] + Split(rest, sep)
  {
    var whole := w + [sep] + rest;
    if w == "" {
      assert whole == [sep] + rest && whole[1..] == rest;
    } else {
      SplitOfPrefix(w[1..], rest, sep);
      assert [w[0]] + w[1..] == w;
      assert whole[1..] == w[1..] + [sep] + rest;
    }
  }

  lemma {:induction false} SplitJoin(parts: seq<string>, sep: char)
    requires parts != []
    requires forall p <- parts :: sep !in p
    ensures Split(Join(parts, sep), sep) == parts
  {
    if |parts| == 1 {
      SplitOfPrefix(parts[0], "", sep);
    } else {
      SplitJoin(parts[1..], sep);
      SplitOfPrefix(parts[0], Join(parts[1..], sep), sep);
      assert parts == [parts[0]] + parts[1..];
    }
  }
}
