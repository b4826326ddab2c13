/** String helpers the crate takes from Rust's standard library:
    `str::to_lowercase` (on ASCII letters), the decimal `Display` of an
    unsigned integer, and `[String]::join`. */
module Text {

  predicate IsUpper(c: char) { 'A' <= c <= 'Z' }

  predicate IsLower(c: char) { 'a' <= c <= 'z' }

  /** Lower-cases one ASCII letter; every other character is kept. */
  function LowerChar(c: char): (r: char)
    ensures IsUpper(c) ==> IsLower(r) && r as int == c as int + 32
    ensures !IsUpper(c) ==> r == c
  {
    if IsUpper(c) then (c as int + 32) as char else c
  }

  /** Upper-cases one ASCII letter; every other character is kept. */
  function UpperChar(c: char): (r: char)
    ensures IsLower(c) ==> IsUpper(r) && r as int + 32 == c as int
    ensures !IsLower(c) ==> r == c
  {
    if IsLower(c) then (c as int - 32) as char else c
  }

  function Lower(s: string): (r: string)
    ensures |r| == |s|
    ensures forall i :: 0 <= i < |s| ==> r[i] == LowerChar(s[i])
  {
    seq(|s|, i requires 0 <= i < |s| => LowerChar(s[i]))
  }

  /** `s` spells `w` with any of its letters capitalised. */
  ghost predicate IsCaseVariant(s: string, w: string)
  {
    |s| == |w| && forall i :: 0 <= i < |s| ==> s[i] == w[i] || s[i] == UpperChar(w[i])
  }

  /** For a word written in lower case, lower-casing a string yields the word
      exactly when the string is a capitalisation of it. */
  lemma LowerIsWord(s: string, w: string)
    requires Lower(w) == w
    ensures Lower(s) == w <==> IsCaseVariant(s, w)
  {
    if Lower(s) == w {
      forall i | 0 <= i < |s| ensures s[i] == w[i] || s[i] == UpperChar(w[i]) {
        assert LowerChar(s[i]) == w[i];
      }
    }
    if IsCaseVariant(s, w) {
      forall i | 0 <= i < |s| ensures Lower(s)[i] == w[i] {
        assert LowerChar(w[i]) == w[i];
      }
    }
  }

  lemma LowerIdempotent(s: string)
    ensures Lower(Lower(s)) == Lower(s)
  {
    forall i | 0 <= i < |s| ensures Lower(Lower(s))[i] == Lower(s)[i] {
      assert LowerChar(LowerChar(s[i])) == LowerChar(s[i]);
    }
  }

  function DigitChar(d: nat): (c: char)
    requires d < 10
    ensures '0' <= c <= '9' && c as int - '0' as int == d
  {
    ('0' as int + d) as char
  }

  /** The decimal text of a natural number, without leading zeros. */
  function Decimal(n: nat): (r: string)
    ensures |r| > 0
    ensures forall i :: 0 <= i < |r| ==> '0' <= r[i] <= '9'
    ensures n > 0 ==> r[0] != '0'
    decreases n
  {
    if n < 10 then [DigitChar(n)] else Decimal(n / 10) + [DigitChar(n % 10)]
  }

  /** The value a string of decimal digits denotes. */
  function DigitsValue(s: string): nat
    requires forall i :: 0 <= i < |s| ==> '0' <= s[i] <= '9'
  {
    if s == [] then 0 else 10 * DigitsValue(s[..|s| - 1]) + (s[|s| - 1] as int - '0' as int)
  }

  /** The decimal text reads back as the number it was made from, so two
      different indexes never share a message. */
  lemma {:induction false} DecimalValue(n: nat)
    ensures DigitsValue(Decimal(n)) == n
    decreases n
  {
    if n >= 10 {
      DecimalValue(n / 10);
      var r := Decimal(n);
      assert r[..|r| - 1] == Decimal(n / 10);
    }
  }

  /** `lines` joined by `sep`, with no separator before the first line or
      after the last. */
  function Join(lines: seq<string>, sep: string): string
  {
    if |lines| == 0 then ""
    else if |lines| == 1 then lines[0]
    else lines[0] + sep + Join(lines[1..], sep)
  }

  /** Every line after the first, each preceded by its separator. */
  function Prefixed(lines: seq<string>, sep: string): string
  {
    if lines == [] then "" else sep + lines[0] + Prefixed(lines[1..], sep)
  }

  /** A join is the first line followed by each later line behind one
      separator: the separator appears between lines and never at the end. */
  lemma {:induction false} JoinIsHeadThenPrefixed(first: string, rest: seq<string>, sep: string)
    ensures Join([first] + rest, sep) == first + Prefixed(rest, sep)
    decreases |rest|
  {
    if rest != [] {
      JoinIsHeadThenPrefixed(rest[0], rest[1..], sep);
      assert ([first] + rest)[1..] == [rest[0]] + rest[1..];
    }
  }
}
