/**
 * String building blocks of the contract: joining array members with a
 * separator, decimal formatting of a non-negative counter (strconv.Itoa),
 * boolean formatting (strconv.FormatBool), and the small scanners the entry
 * parsers use.
 */
module Text {
  import opened Types

  /** f applied to each element. */
  function Render<T>(xs: seq<T>, f: T -> string): seq<string>
  {
    seq(|xs|, i requires 0 <= i < |xs| => f(xs[i]))
  }

  /** The parts with sep between consecutive ones. */
  function Join(parts: seq<string>, sep: string): (r: string)
    ensures parts == [] ==> r == ""
    ensures |parts| > 0 ==> parts[0] <= r
    decreases |parts|
  {
    if |parts| == 0 then ""
    else if |parts| == 1 then parts[0]
    else parts[0] + sep + Join(parts[1..], sep)
  }

  /**
   * Appending one more part: the separator goes in exactly when some part was
   * already written. This is the form a left-to-right writer with an
   * "already written" flag produces.
   */
  lemma {:induction false} JoinSnoc(parts: seq<string>, p: string, sep: string)
    ensures Join(parts + [p], sep) == if parts == [] then p else Join(parts, sep) + sep + p
    decreases |parts|
  {
    if |parts| == 1 {
      assert parts + [p] == [parts[0], p];
      assert [parts[0], p][1..] == [p];
    } else if |parts| > 1 {
      assert (parts + [p])[1..] == parts[1..] + [p];
      JoinSnoc(parts[1..], p, sep);
    }
  }

  /** "[" then the members joined with "," then "]". */
  function JsonArray(members: seq<string>): (a: string)
    ensures members == [] ==> a == "[]"
  {
    "[" + Join(members, ",") + "]"
  }

  /** The decimal digit d as a character. */
  function DigitChar(d: nat): char
    requires d < 10
  {
    ('0' as int + d) as char
  }

  /** strconv.Itoa of a non-negative integer: its decimal digits, no leading zeros. */
  function Itoa(n: nat): (s: string)
    ensures |s| >= 1 && forall i :: 0 <= i < |s| ==> '0' <= s[i] <= '9'
    ensures |s| > 1 ==> s[0] != '0'
    decreases n
  {
    if n < 10 then [DigitChar(n)] else Itoa(n / 10) + [DigitChar(n % 10)]
  }

  /** The value of a string of decimal digits. */
  function Atoi(s: string): int
    decreases |s|
  {
    if s == [] then 0
    else 10 * Atoi(s[..|s| - 1]) + (s[|s| - 1] as int - '0' as int)
  }

  /** Reading back a formatted number gives the number. */
  lemma {:induction false} AtoiItoa(n: nat)
    ensures Atoi(Itoa(n)) == n
    decreases n
  {
    if n >= 10 {
      var s := Itoa(n / 10);
      var t := s + [DigitChar(n % 10)];
      assert t[..|t| - 1] == s;
      AtoiItoa(n / 10);
      assert Atoi(t) == 10 * (n / 10) + n % 10;
    }
  }

  /** Different numbers format to different strings. */
  lemma ItoaInjective(m: nat, n: nat)
    requires Itoa(m) == Itoa(n)
    ensures m == n
  {
    AtoiItoa(m);
    AtoiItoa(n);
  }

  /** strconv.FormatBool. */
  function FormatBool(b: bool): (s: string)
    ensures s == "true" <==> b
    ensures s == "true" || s == "false"
  {
    if b then "true" else "false"
  }

  /** s with the prefix p removed, when s starts with p. */
  function DropPrefix(s: string, p: string): Option<string>
  {
    if p <= s then Some(s[|p|..]) else None
  }

  /** s with the suffix p removed, when s ends with p. */
  function DropSuffix(s: string, p: string): Option<string>
  {
    if |p| <= |s| && s[|s| - |p|..] == p then Some(s[..|s| - |p|]) else None
  }

  /** Removing a prefix that is there gives back the rest. */
  lemma DropPrefixOf(p: string, s: string)
    ensures DropPrefix(p + s, p) == Some(s)
  {
  }

  /** Removing a suffix that is there gives back the front. */
  lemma DropSuffixOf(s: string, p: string)
    ensures DropSuffix(s + p, p) == Some(s)
  {
  }

  /** s cut before its first double quote: the part without quotes, and the rest. */
  function SplitAtQuote(s: string): (string, string)
    decreases |s|
  {
    if s == [] || s[0] == '"' then ([], s)
    else
      var (a, b) := SplitAtQuote(s[1..]);
      ([s[0]] + a, b)
  }

  /** s cut after its last double quote: the rest, and the part without quotes. */
  function SplitAtLastQuote(s: string): (string, string)
    decreases |s|
  {
    if s == [] || s[|s| - 1] == '"' then (s, [])
    else
      var (a, b) := SplitAtLastQuote(s[..|s| - 1]);
      (a, b + [s[|s| - 1]])
  }

  /** A quote-free text followed by a quote is split off exactly. */
  lemma {:induction false} SplitAtQuoteOf(a: string, rest: string)
    requires '"' !in a
    ensures SplitAtQuote(a + "\"" + rest) == (a, "\"" + rest)
    decreases |a|
  {
    var s := a + "\"" + rest;
    if a != [] {
      assert s[0] == a[0] && a[0] != '"';
      assert s[1..] == a[1..] + "\"" + rest;
      SplitAtQuoteOf(a[1..], rest);
      assert [a[0]] + a[1..] == a;
    } else {
      assert s == "\"" + rest;
    }
  }

  /** A quote followed by a quote-free text is split off exactly. */
  lemma {:induction false} SplitAtLastQuoteOf(front: string, a: string)
    requires '"' !in a
    ensures SplitAtLastQuote(front + "\"" + a) == (front + "\"", a)
    decreases |a|
  {
    if a != [] {
      var s := front + "\"" + a;
      assert s[..|s| - 1] == front + "\"" + a[..|a| - 1];
      SplitAtLastQuoteOf(front, a[..|a| - 1]);
      assert a[..|a| - 1] + [a[|a| - 1]] == a;
    } else {
      assert front + "\"" + a == front + "\"";
    }
  }
}
