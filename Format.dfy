/**
 * The thousands-separator formatter of the portfolio table: split at the
 * first '.', keep a leading '-', put a ',' before every group of three
 * integer digits counted from the right.
 */
module Format {
  import opened Wrappers

  /** Index of the first '.' in `s`, if any. */
  function DotIndex(s: string): (r: Option<nat>)
    ensures r.None? <==> '.' !in s
    ensures r.Some? ==> r.value < |s| && s[r.value] == '.' && '.' !in s[..r.value]
  {
    if s == [] then None
    else if s[0] == '.' then Some(0)
    else
      match DotIndex(s[1..])
      case None => None
      case Some(k) =>
        assert s[..k + 1] == [s[0]] + s[1..][..k];
        Some(k + 1)
  }

  /** The first field of splitting `s` at '.': everything before the first dot. */
  function IntPart(s: string): string
  {
    match DotIndex(s)
    case None => s
    case Some(k) => s[..k]
  }

  /** The second field of splitting `s` at '.', present when `s` has a dot. */
  function Fraction(s: string): Option<string>
  {
    match DotIndex(s)
    case None => None
    case Some(k) =>
      var rest := s[k + 1..];
      match DotIndex(rest)
      case None => Some(rest)
      case Some(m) => Some(rest[..m])
  }

  /** Digits grouped by three from the right, with ',' between groups. */
  function Group(p: string): string
  {
    if |p| <= 3 then p else Group(p[..|p| - 3]) + "," + p[|p| - 3..]
  }

  /** Sign, grouped digits, then '.' and the fraction when there is one. */
  function Assemble(negative: bool, digits: string, fraction: Option<string>): string
  {
    var formatted := if fraction.Some? then Group(digits) + ("." + fraction.value) else Group(digits);
    if negative then "-" + formatted else formatted
  }

  /** Whether the first field starts with '-'. */
  predicate Negative(s: string)
  {
    |IntPart(s)| > 0 && IntPart(s)[0] == '-'
  }

  /** The first field without its '-'. */
  function Digits(s: string): string
  {
    if Negative(s) then IntPart(s)[1..] else IntPart(s)
  }

  /** The formatted number: a leading '-' taken off the first field, its digits grouped, the second field kept. */
  function FormatSpec(s: string): string
  {
    Assemble(Negative(s), Digits(s), Fraction(s))
  }

  /** What the separator loop has emitted after the first `n` characters of `p`. */
  ghost function Emitted(p: string, n: nat): string
    requires n <= |p|
  {
    if n == 0 then []
    else Emitted(p, n - 1) + (if n - 1 > 0 && (|p| - (n - 1)) % 3 == 0 then "," else "") + [p[n - 1]]
  }

  /** The loop over a string depends only on the length of the whole and the characters seen. */
  lemma {:induction false} EmittedPrefix(p: string, q: string, n: nat)
    requires n <= |q| <= |p| && (|p| - |q|) % 3 == 0 && q == p[..|q|]
    ensures Emitted(p, n) == Emitted(q, n)
  {
    if n > 0 {
      EmittedPrefix(p, q, n - 1);
      assert p[n - 1] == q[n - 1];
      assert (|p| - (n - 1)) % 3 == (|q| - (n - 1)) % 3;
    }
  }

  /** Up to three characters, the loop inserts nothing. */
  lemma {:induction false} EmittedShort(p: string, n: nat)
    requires n <= |p| <= 3
    ensures Emitted(p, n) == p[..n]
  {
    if n > 0 {
      EmittedShort(p, n - 1);
      assert p[..n] == p[..n - 1] + [p[n - 1]];
    }
  }

  /** The separator loop computes `Group`. */
  lemma {:induction false} EmittedIsGroup(p: string)
    ensures Emitted(p, |p|) == Group(p)
    decreases |p|
  {
    if |p| <= 3 {
      EmittedShort(p, |p|);
      assert p[..|p|] == p;
    } else {
      var q := p[..|p| - 3];
      EmittedIsGroup(q);
      EmittedPrefix(p, q, |q|);
      var n := |q|;
      assert Emitted(p, n + 1) == Emitted(p, n) + "," + [p[n]];
      assert Emitted(p, n + 2) == Emitted(p, n + 1) + [p[n + 1]];
      assert Emitted(p, n + 3) == Emitted(p, n + 2) + [p[n + 2]];
      assert p[|p| - 3..] == [p[n], p[n + 1], p[n + 2]];
    }
  }

  /** The separator loop: a ',' before every character whose distance from the end is a positive multiple of three. */
  method InsertSeparators(intPart: string) returns (result: string)
    ensures result == Group(intPart)
  {
    result := [];
    var i := 0;
    while i < |intPart|
      invariant 0 <= i <= |intPart|
      invariant result == Emitted(intPart, i)
    {
      if i > 0 && (|intPart| - i) % 3 == 0 {
        result := result + [','];
      }
      result := result + [intPart[i]];
      i := i + 1;
    }
    EmittedIsGroup(intPart);
  }

  /** Formats a numeric string with thousands separators. */
  method FormatNumber(s: string) returns (formatted: string)
    ensures formatted == FormatSpec(s)
  {
    var intPart := IntPart(s);
    var negative := false;
    if |intPart| > 0 && intPart[0] == '-' {
      negative := true;
      intPart := intPart[1..];
    }
    formatted := InsertSeparators(intPart);
    var fraction := Fraction(s);
    if fraction.Some? {
      formatted := formatted + ("." + fraction.value);
    }
    if negative {
      formatted := "-" + formatted;
    }
  }

  /** `s` with every ',' deleted. */
  function RemoveCommas(s: string): (r: string)
    ensures ',' !in r
  {
    if s == [] then [] else RemoveCommas(s[..|s| - 1]) + (if s[|s| - 1] == ',' then [] else [s[|s| - 1]])
  }

  /** Deleting commas distributes over concatenation. */
  lemma {:induction false} RemoveCommasAppend(a: string, b: string)
    ensures RemoveCommas(a + b) == RemoveCommas(a) + RemoveCommas(b)
  {
    if b == [] {
      assert a + b == a;
    } else {
      assert (a + b)[..|a + b| - 1] == a + b[..|b| - 1];
      RemoveCommasAppend(a, b[..|b| - 1]);
    }
  }

  /** A string without commas is left alone by `RemoveCommas`. */
  lemma {:induction false} RemoveCommasNone(s: string)
    requires ',' !in s
    ensures RemoveCommas(s) == s
  {
    if s != [] {
      assert ',' !in s[..|s| - 1] by {
        assert forall c :: c in s[..|s| - 1] ==> c in s;
      }
      RemoveCommasNone(s[..|s| - 1]);
    }
  }

  /** Helper: the two sides of a cut of a comma-free string are comma-free. */
  lemma NoCommaSlices(p: string, k: nat)
    requires ',' !in p && k <= |p|
    ensures ',' !in p[..k] && ',' !in p[k..]
  {
    assert forall c :: c in p[..k] ==> c in p;
    assert forall c :: c in p[k..] ==> c in p;
  }

  /** Deleting the commas of `Group(p)` gives back `p`. */
  lemma {:induction false} GroupRemoveCommas(p: string)
    requires ',' !in p
    ensures RemoveCommas(Group(p)) == p
    decreases |p|
  {
    if |p| <= 3 {
      RemoveCommasNone(p);
    } else {
      var q := p[..|p| - 3];
      var t := p[|p| - 3..];
      NoCommaSlices(p, |p| - 3);
      GroupRemoveCommas(q);
      var g := Group(q);
      assert Group(p) == (g + ",") + t;
      RemoveCommasAppend(g + ",", t);
      RemoveCommasAppend(g, ",");
      RemoveCommasNone(t);
      assert RemoveCommas(",") == [] by {
        assert ","[..0] == [];
      }
      assert RemoveCommas(g + ",") == q;
      assert q + t == p;
    }
  }

  /**
   * Commas sit exactly at the positions 4, 8, 12, ... from the right end of
   * `Group(p)`, never first and hence never two in a row; the length grows by
   * one comma per full group of three beyond the first.
   */
  lemma {:induction false} GroupCommaPositions(p: string)
    requires ',' !in p
    ensures |p| <= 3 ==> Group(p) == p
    ensures |Group(p)| == |p| + (if |p| == 0 then 0 else (|p| - 1) / 3)
    ensures forall j :: 0 <= j < |Group(p)| ==>
      (Group(p)[j] == ',' <==> j > 0 && (|Group(p)| - j) % 4 == 0)
    decreases |p|
  {
    var g := Group(p);
    if |p| <= 3 {
      forall j | 0 <= j < |g| ensures g[j] != ',' {
        assert g[j] in p;
      }
    } else {
      var q := p[..|p| - 3];
      var t := p[|p| - 3..];
      assert ',' !in q && ',' !in t by {
        assert forall c :: c in q ==> c in p;
        assert forall c :: c in t ==> c in p;
      }
      GroupCommaPositions(q);
      var gq := Group(q);
      assert g == gq + "," + t;
      forall j | 0 <= j < |g|
        ensures g[j] == ',' <==> j > 0 && (|g| - j) % 4 == 0
      {
        if j < |gq| {
          assert g[j] == gq[j];
          assert (|g| - j) % 4 == (|gq| - j) % 4;
        } else if j > |gq| {
          assert g[j] == t[j - |gq| - 1];
          assert g[j] in t;
        }
      }
    }
  }

  /** Grouping keeps the first character in front. */
  lemma {:induction false} GroupHead(p: string)
    requires |p| > 0
    ensures |Group(p)| > 0 && Group(p)[0] == p[0]
    decreases |p|
  {
    if |p| > 3 {
      GroupHead(p[..|p| - 3]);
    }
  }

  /** A numeric text as the table produces it: no ',' and no '.' after the first one. */
  predicate PlainNumber(s: string)
  {
    ',' !in s && (DotIndex(s).None? || '.' !in s[DotIndex(s).value + 1..])
  }

  /** With a single dot, the split gives back the text on either side of it. */
  lemma SplitOneDot(s: string)
    requires PlainNumber(s)
    ensures Fraction(s).None? ==> IntPart(s) == s
    ensures Fraction(s).Some? ==> s == IntPart(s) + ("." + Fraction(s).value)
  {
    match DotIndex(s)
    case None =>
    case Some(k) =>
      assert s == s[..k] + ("." + s[k + 1..]);
  }

  /** Helper: concatenation is associative. */
  lemma ConcatAssoc(a: string, b: string, c: string)
    ensures a + (b + c) == (a + b) + c
  {
  }

  /** Helper for `FormatRemoveCommas`: only the grouping adds commas. */
  lemma AssembleRemoveCommas(negative: bool, digits: string, fraction: Option<string>)
    requires ',' !in digits && (fraction.Some? ==> ',' !in fraction.value)
    ensures var plain := if fraction.Some? then digits + ("." + fraction.value) else digits;
            RemoveCommas(Assemble(negative, digits, fraction)) == if negative then "-" + plain else plain
  {
    GroupRemoveCommas(digits);
    var g := Group(digits);
    var body := if fraction.Some? then g + ("." + fraction.value) else g;
    var plain := if fraction.Some? then digits + ("." + fraction.value) else digits;
    if fraction.Some? {
      var f := fraction.value;
      RemoveCommasNone(f);
      RemoveCommasNone(".");
      RemoveCommasAppend(".", f);
      RemoveCommasAppend(g, "." + f);
    }
    assert RemoveCommas(body) == plain;
    if negative {
      RemoveCommasNone("-");
      RemoveCommasAppend("-", body);
      assert RemoveCommas("-" + body) == "-" + plain;
    }
  }

  /** Deleting the commas of the formatted text gives back a plain number. */
  lemma FormatRemoveCommas(s: string)
    requires PlainNumber(s)
    ensures RemoveCommas(FormatSpec(s)) == s
  {
    PlainParts(s);
    var fraction := Fraction(s);
    AssembleRemoveCommas(Negative(s), Digits(s), fraction);
    if Negative(s) && fraction.Some? {
      ConcatAssoc("-", Digits(s), "." + fraction.value);
    }
  }

  /** Helper for `FormatRemoveCommas`: the pieces of a plain number, and how they make it up. */
  lemma PlainParts(s: string)
    requires PlainNumber(s)
    ensures ',' !in Digits(s) && (Fraction(s).Some? ==> ',' !in Fraction(s).value)
    ensures var front := if Negative(s) then "-" + Digits(s) else Digits(s);
            s == if Fraction(s).Some? then front + ("." + Fraction(s).value) else front
  {
    SplitOneDot(s);
    var intPart := IntPart(s);
    if Fraction(s).Some? {
      var tail := "." + Fraction(s).value;
      NoCommaSlices(s, |intPart|);
      assert s[..|intPart|] == intPart && s[|intPart|..] == tail;
      NoCommaSlices(tail, 1);
      assert tail[1..] == Fraction(s).value;
    }
    if Negative(s) {
      NoCommaSlices(intPart, 1);
      assert intPart == "-" + Digits(s);
    }
  }

  /** The sign survives formatting, and the second field is kept verbatim after a '.' at the end. */
  lemma FormatKeepsSignAndFraction(s: string)
    ensures (|FormatSpec(s)| > 0 && FormatSpec(s)[0] == '-') <==> (|s| > 0 && s[0] == '-')
    ensures Fraction(s).Some? ==>
      var f := "." + Fraction(s).value;
      |f| <= |FormatSpec(s)| && FormatSpec(s)[|FormatSpec(s)| - |f|..] == f
  {
    var intPart := IntPart(s);
    assert |s| > 0 && s[0] == '-' ==> |intPart| > 0 && intPart[0] == '-';
    assert |intPart| > 0 ==> intPart[0] == s[0];
    if |Digits(s)| > 0 {
      GroupHead(Digits(s));
    }
  }
}
