/**
 * The string operations the client relies on: Python's `str.replace`,
 * `str.rstrip` with one character, `str()` of an integer, and path templates
 * with `{name}` placeholders.
 */
module Text {

  /** Python's `s.replace(pat, rep)`: every non-overlapping occurrence, left to right. */
  function ReplaceAll(s: string, pat: string, rep: string): (r: string)
    requires pat != []
    ensures rep == pat ==> r == s
    decreases |s|
  {
    if |s| < |pat| then s
    else if s[..|pat|] == pat then rep + ReplaceAll(s[|pat|..], pat, rep)
    else [s[0]] + ReplaceAll(s[1..], pat, rep)
  }

  /** A string in which the pattern's first character never occurs is left as it is. */
  lemma {:induction false} ReplaceAbsent(s: string, pat: string, rep: string)
    requires pat != [] && pat[0] !in s
    ensures ReplaceAll(s, pat, rep) == s
    decreases |s|
  {
    if |s| >= |pat| {
      assert s[..|pat|][0] == s[0] != pat[0];
      ReplaceAbsent(s[1..], pat, rep);
    }
  }

  /** Python's `s.rstrip(c)`: every trailing `c` is removed. */
  function RStrip(s: string, c: char): (r: string)
    ensures |r| <= |s| && r == s[..|r|]
    ensures r == [] || r[|r| - 1] != c
    ensures forall i :: |r| <= i < |s| ==> s[i] == c
    decreases |s|
  {
    if s != [] && s[|s| - 1] == c then RStrip(s[..|s| - 1], c) else s
  }

  predicate IsDigit(ch: char) { '0' <= ch <= '9' }

  function DigitChar(d: nat): char
    requires d < 10
  {
    ['0', '1', '2', '3', '4', '5', '6', '7', '8', '9'][d]
  }

  /** The number a string of decimal digits denotes. */
  function DigitsValue(s: string): int
    requires forall i :: 0 <= i < |s| ==> IsDigit(s[i])
  {
    if s == [] then 0 else 10 * DigitsValue(s[..|s| - 1]) + (s[|s| - 1] as int - '0' as int)
  }

  /** The decimal digits of a natural number, as `str(n)` writes them. */
  function Digits(n: nat): (r: string)
    ensures r != []
    ensures forall i :: 0 <= i < |r| ==> IsDigit(r[i])
    ensures r[0] == '0' ==> n == 0
  {
    if n < 10 then [DigitChar(n)] else Digits(n / 10) + [DigitChar(n % 10)]
  }

  /** Reading back the digits gives the number: `int(str(n)) == n`. */
  lemma {:induction false} DigitsRoundTrip(n: nat)
    ensures DigitsValue(Digits(n)) == n
  {
    if n >= 10 {
      DigitsRoundTrip(n / 10);
      var r := Digits(n);
      assert r[..|r| - 1] == Digits(n / 10);
    }
  }

  /** Python's `str(n)` for an integer. */
  function Decimal(n: int): (r: string)
    ensures r != []
    ensures n >= 0 ==> forall i :: 0 <= i < |r| ==> IsDigit(r[i])
    ensures n < 0 ==> r[0] == '-' && forall i :: 1 <= i < |r| ==> IsDigit(r[i])
    ensures BraceFree(r)
    ensures n >= 0 ==> r == Digits(n)
    ensures n < 0 ==> r == "-" + Digits(-n)
  {
    if n >= 0 then Digits(n) else "-" + Digits(-n)
  }

  /** Reading back `str(n)`, sign included, gives `n`: `int(str(n)) == n`. */
  lemma DecimalRoundTrip(n: int)
    ensures n >= 0 ==> DigitsValue(Decimal(n)) == n
    ensures n < 0 ==> Decimal(n)[0] == '-' && -DigitsValue(Decimal(n)[1..]) == n
  {
    if n >= 0 {
      DigitsRoundTrip(n);
    } else {
      DigitsRoundTrip(-n);
      assert Decimal(n)[1..] == Digits(-n);
    }
  }

  predicate BraceFree(s: string) { '{' !in s && '}' !in s }

  /** The text `{name}` that names a path parameter in a path template. */
  function Placeholder(name: string): string { "{" + name + "}" }

  /** A path template read as literal runs and `{name}` placeholders. */
  datatype Seg = Lit(text: string) | Hole(name: string)

  function Render(t: seq<Seg>): string {
    if t == [] then ""
    else match t[0]
      case Lit(s) => s + Render(t[1..])
      case Hole(n) => Placeholder(n) + Render(t[1..])
  }

  /** No literal run and no placeholder name contains a brace. */
  predicate WellFormed(t: seq<Seg>) {
    t == [] || (BraceFree(if t[0].Lit? then t[0].text else t[0].name) && WellFormed(t[1..]))
  }

  /** The placeholder names of a template. */
  function Holes(t: seq<Seg>): set<string> {
    if t == [] then {} else (if t[0].Hole? then {t[0].name} else {}) + Holes(t[1..])
  }

  /** The placeholder names of a template, left to right: the list a descriptor should declare. */
  function HoleNames(t: seq<Seg>): (names: seq<string>)
    ensures forall h :: h in names <==> h in Holes(t)
  {
    if t == [] then [] else (if t[0].Hole? then [t[0].name] else []) + HoleNames(t[1..])
  }

  /** The placeholder names of a well-formed template contain no braces. */
  lemma {:induction false} HoleNamesBraceFree(t: seq<Seg>)
    requires WellFormed(t)
    ensures forall h :: h in Holes(t) ==> BraceFree(h)
  {
    if t != [] {
      HoleNamesBraceFree(t[1..]);
    }
  }

  /** Every placeholder `{name}` becomes the literal `v`. */
  function Fill(t: seq<Seg>, name: string, v: string): (r: seq<Seg>)
    ensures |r| == |t|
    ensures forall i :: 0 <= i < |t| ==> r[i] == if t[i] == Hole(name) then Lit(v) else t[i]
  {
    if t == [] then [] else [if t[0] == Hole(name) then Lit(v) else t[0]] + Fill(t[1..], name, v)
  }

  /** A rendered template without placeholders contains no opening brace. */
  lemma {:induction false} RenderNoHoles(t: seq<Seg>)
    requires WellFormed(t)
    requires Holes(t) == {}
    ensures '{' !in Render(t)
  {
    if t != [] {
      RenderNoHoles(t[1..]);
    }
  }

  /** A replace that starts on a run without `{` leaves that run alone. */
  lemma {:induction false} ReplaceSkipsRun(lit: string, rest: string, pat: string, rep: string)
    requires pat != [] && pat[0] == '{'
    requires '{' !in lit
    ensures ReplaceAll(lit + rest, pat, rep) == lit + ReplaceAll(rest, pat, rep)
    decreases |lit|
  {
    var s := lit + rest;
    if lit != [] {
      if |s| < |pat| {
        assert |rest| < |pat|;
      } else {
        assert s[..|pat|][0] == lit[0] != pat[0];
        assert s[1..] == lit[1..] + rest;
        ReplaceSkipsRun(lit[1..], rest, pat, rep);
      }
    } else {
      assert s == rest;
    }
  }

  /** The placeholder of one name does not match at the placeholder of another. */
  lemma PlaceholderMismatch(n: string, name: string, rest: string)
    requires n != name && BraceFree(n) && BraceFree(name)
    requires |Placeholder(n) + rest| >= |Placeholder(name)|
    ensures (Placeholder(n) + rest)[..|Placeholder(name)|] != Placeholder(name)
  {
    var s, pat := Placeholder(n) + rest, Placeholder(name);
    if |n| == |name| {
      var i :| 0 <= i < |n| && n[i] != name[i];
      assert s[i + 1] == n[i] && pat[i + 1] == name[i];
      assert s[..|pat|][i + 1] != pat[i + 1];
    } else if |n| < |name| {
      assert s[|n| + 1] == '}' && pat[|n| + 1] == name[|n|];
      assert s[..|pat|][|n| + 1] != pat[|n| + 1];
    } else {
      assert s[|name| + 1] == n[|name|] && pat[|name| + 1] == '}';
      assert s[..|pat|][|name| + 1] != pat[|name| + 1];
    }
  }

  /** A replace that starts on its own placeholder replaces it. */
  lemma ReplaceOwnHole(name: string, rest: string, v: string)
    ensures ReplaceAll(Placeholder(name) + rest, Placeholder(name), v) == v + ReplaceAll(rest, Placeholder(name), v)
  {
    var s, pat := Placeholder(name) + rest, Placeholder(name);
    assert s[..|pat|] == pat;
    assert s[|pat|..] == rest;
  }

  /** A replace that starts on the placeholder of another name skips it. */
  lemma ReplaceOtherHole(n: string, name: string, rest: string, v: string)
    requires n != name && BraceFree(n) && BraceFree(name)
    ensures ReplaceAll(Placeholder(n) + rest, Placeholder(name), v) == Placeholder(n) + ReplaceAll(rest, Placeholder(name), v)
  {
    var s, pat := Placeholder(n) + rest, Placeholder(name);
    if |s| < |pat| {
      assert ReplaceAll(rest, pat, v) == rest;
    } else {
      assert s[..|pat|] != pat by { PlaceholderMismatch(n, name, rest); }
      SkipFirst(s, pat, v);
      assert s[1..] == (n + "}") + rest;
      ReplaceSkipsRun(n + "}", rest, pat, v);
      assert [s[0]] + (n + "}") == Placeholder(n);
    }
  }

  /** Where the pattern does not match, the first character is kept. */
  lemma SkipFirst(s: string, pat: string, v: string)
    requires pat != [] && |s| >= |pat| && s[..|pat|] != pat
    ensures ReplaceAll(s, pat, v) == [s[0]] + ReplaceAll(s[1..], pat, v)
  {
  }

  /**
   * On a well-formed template, `replace("{name}", v)` is exactly filling the
   * placeholders of that name: no other text is touched.
   */
  lemma {:induction false} ReplaceFills(t: seq<Seg>, name: string, v: string)
    requires WellFormed(t) && BraceFree(name)
    ensures ReplaceAll(Render(t), Placeholder(name), v) == Render(Fill(t, name, v))
  {
    if t != [] {
      ReplaceFills(t[1..], name, v);
      assert Fill(t, name, v)[1..] == Fill(t[1..], name, v);
      match t[0]
      case Lit(s) =>
        ReplaceSkipsRun(s, Render(t[1..]), Placeholder(name), v);
      case Hole(n) =>
        if n == name {
          ReplaceOwnHole(name, Render(t[1..]), v);
        } else {
          ReplaceOtherHole(n, name, Render(t[1..]), v);
        }
    }
  }
}
