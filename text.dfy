/** String helpers the dispatch routine relies on: the decimal rendering that
    `format!("{}", n)` gives a line or column number, and `str::replace` with the
    fixed pattern "{}" that fills a webhook format. */
module Text {

  function Digit(d: nat): (c: char)
    requires d < 10
    ensures '0' <= c <= '9' && c as int - '0' as int == d
  {
    ['0', '1', '2', '3', '4', '5', '6', '7', '8', '9'][d]
  }

  predicate IsDigits(s: string) {
    forall k :: 0 <= k < |s| ==> '0' <= s[k] <= '9'
  }

  /** Shortest base-10 rendering of n, as Rust's Display for integers writes it. */
  function Decimal(n: nat): (s: string)
    ensures |s| >= 1 && IsDigits(s)
    ensures s[0] == '0' ==> n == 0 && s == "0"
    decreases n
  {
    if n < 10 then [Digit(n)] else Decimal(n / 10) + [Digit(n % 10)]
  }

  /** The number a digit string denotes; the reference reading of Decimal. */
  function DigitsValue(s: string): nat
    requires IsDigits(s)
  {
    if s == [] then 0 else DigitsValue(s[..|s| - 1]) * 10 + (s[|s| - 1] as int - '0' as int)
  }

  lemma {:induction false} DecimalRoundTrip(n: nat)
    ensures DigitsValue(Decimal(n)) == n
    decreases n
  {
    if n >= 10 {
      var s := Decimal(n);
      assert s[..|s| - 1] == Decimal(n / 10);
      DecimalRoundTrip(n / 10);
    }
  }

  /** s contains the placeholder "{}" somewhere. */
  predicate HasPlaceholder(s: string) {
    exists k :: 0 <= k < |s| - 1 && s[k] == '{' && s[k + 1] == '}'
  }

  /** `format.replace("{}", text)`: every occurrence of "{}", scanned left to
      right without overlap, is replaced by text. */
  function Substitute(format: string, text: string): string
    decreases |format|
  {
    if |format| < 2 then format
    else if format[0] == '{' && format[1] == '}' then text + Substitute(format[2..], text)
    else [format[0]] + Substitute(format[1..], text)
  }

  /** Number of placeholders Substitute replaces. */
  function Placeholders(format: string): nat
    decreases |format|
  {
    if |format| < 2 then 0
    else if format[0] == '{' && format[1] == '}' then 1 + Placeholders(format[2..])
    else Placeholders(format[1..])
  }

  lemma {:induction false} NoPlaceholderUnchanged(format: string, text: string)
    requires !HasPlaceholder(format)
    ensures Substitute(format, text) == format
    decreases |format|
  {
    if |format| >= 2 {
      assert !(format[0] == '{' && format[1] == '}');
      var rest := format[1..];
      PlaceholderFreeTail(format);
      NoPlaceholderUnchanged(rest, text);
    }
  }

  /** Dropping the first character keeps a string placeholder-free. */
  lemma PlaceholderFreeTail(s: string)
    requires |s| >= 1 && !HasPlaceholder(s)
    ensures !HasPlaceholder(s[1..])
  {
    var rest := s[1..];
    forall k | 0 <= k < |rest| - 1
      ensures !(rest[k] == '{' && rest[k + 1] == '}')
    {
      assert rest[k] == s[k + 1] && rest[k + 1] == s[k + 2];
    }
  }

  /** A character that does not open a placeholder is copied through. */
  lemma SubstituteCons(c: char, s: string, text: string)
    requires !(c == '{' && |s| >= 1 && s[0] == '}')
    ensures Substitute([c] + s, text) == [c] + Substitute(s, text)
  {
    var f := [c] + s;
    if |f| >= 2 {
      assert f[0] == c && f[1] == s[0];
      assert f[1..] == s;
    }
  }

  /** The first placeholder is the one after the longest placeholder-free
      prefix, and it is replaced by text. */
  lemma {:induction false} SubstituteFirst(a: string, b: string, text: string)
    requires !HasPlaceholder(a)
    ensures Substitute(a + "{}" + b, text) == a + text + Substitute(b, text)
    decreases |a|
  {
    var f := a + "{}" + b;
    if a == [] {
      assert f[0] == '{' && f[1] == '}' && f[2..] == b;
    } else {
      var rest := a[1..];
      PlaceholderFreeTail(a);
      var tail := rest + "{}" + b;
      assert f == [a[0]] + tail;
      assert !(a[0] == '{' && tail[0] == '}') by {
        if |a| >= 2 { assert tail[0] == a[1]; } else { assert tail[0] == '{'; }
      }
      SubstituteCons(a[0], tail, text);
      SubstituteFirst(rest, b, text);
      assert Substitute(f, text) == [a[0]] + (rest + text + Substitute(b, text));
      assert a == [a[0]] + rest;
    }
  }

  /** Length of a substituted format: each placeholder's two characters give
      way to the whole text. */
  lemma {:induction false} SubstituteLength(format: string, text: string)
    ensures |Substitute(format, text)| == |format| + Placeholders(format) * (|text| - 2)
    decreases |format|
  {
    if |format| >= 2 {
      if format[0] == '{' && format[1] == '}' {
        var rest := format[2..];
        SubstituteLength(rest, text);
        assert Substitute(format, text) == text + Substitute(rest, text);
        Distribute(Placeholders(rest), |text| - 2);
      } else {
        var rest := format[1..];
        SubstituteLength(rest, text);
      }
    }
  }

  lemma Distribute(p: int, d: int)
    ensures (p + 1) * d == p * d + d
  {
  }

  /** Placeholders counts zero exactly when "{}" does not occur. */
  lemma {:induction false} PlaceholdersZero(format: string)
    ensures Placeholders(format) == 0 <==> !HasPlaceholder(format)
    decreases |format|
  {
    if |format| >= 2 {
      if format[0] == '{' && format[1] == '}' {
        assert HasPlaceholder(format);
      } else {
        var rest := format[1..];
        PlaceholdersZero(rest);
        if HasPlaceholder(format) {
          var k :| 0 <= k < |format| - 1 && format[k] == '{' && format[k + 1] == '}';
          assert k != 0;
          assert rest[k - 1] == '{' && rest[k] == '}';
        }
        if !HasPlaceholder(format) {
          PlaceholderFreeTail(format);
        }
      }
    } else {
      assert !HasPlaceholder(format);
    }
  }
}
