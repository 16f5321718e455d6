/** The string operations the JavaScript source relies on, written out over
    `seq<char>`: ASCII case mapping, `includes`, `trim`, `split`, `join`,
    the `/_/g` and `/\b\w/g` rewrites, ordered keyword tables and counting. */
module Text {

  // ---------------------------------------------------------------------
  // Characters

  /** JavaScript's `\w`: ASCII letters, digits and the underscore. */
  predicate IsWordChar(c: char) {
    ('a' <= c <= 'z') || ('A' <= c <= 'Z') || ('0' <= c <= '9') || c == '_'
  }

  /** The characters `String.prototype.trim` removes (WhiteSpace and LineTerminator). */
  predicate IsSpace(c: char) {
    c == ' ' || c == '\t' || c == '\n' || c == '\r' || c == '\U{000B}' || c == '\U{000C}'
    || c == '\U{00A0}' || c == '\U{1680}' || ('\U{2000}' <= c <= '\U{200A}')
    || c == '\U{2028}' || c == '\U{2029}' || c == '\U{202F}' || c == '\U{205F}'
    || c == '\U{3000}' || c == '\U{FEFF}'
  }

  function LowerChar(c: char): (d: char)
    ensures IsWordChar(d) <==> IsWordChar(c)
  {
    if 'A' <= c <= 'Z' then (c as int + 32) as char else c
  }

  function UpperChar(c: char): (d: char)
    ensures IsWordChar(d) <==> IsWordChar(c)
    ensures d != '_' ==> c != '_'
    ensures c != ',' ==> d != ','
  {
    if 'a' <= c <= 'z' then (c as int - 32) as char else c
  }

  /** `s.toLowerCase()` restricted to ASCII letters. */
  function Lower(s: string): (r: string)
    ensures |r| == |s|
    ensures forall i :: 0 <= i < |s| ==> r[i] == LowerChar(s[i])
  {
    seq(|s|, i requires 0 <= i < |s| => LowerChar(s[i]))
  }

  // ---------------------------------------------------------------------
  // Substrings

  predicate StartsWith(s: string, p: string) {
    |p| <= |s| && s[..|p|] == p
  }

  /** `s.includes(p)` */
  predicate Contains(s: string, p: string)
    decreases |s|
  {
    StartsWith(s, p) || (|s| > 0 && Contains(s[1..], p))
  }

  /** An occurrence of `p` in `s` is no longer than `s` and uses only characters of `s`. */
  lemma {:induction false} ContainsChars(s: string, p: string)
    ensures Contains(s, p) ==> |p| <= |s| && forall i :: 0 <= i < |p| ==> p[i] in s
    decreases |s|
  {
    if StartsWith(s, p) {
      forall i | 0 <= i < |p| ensures p[i] in s {
        assert s[i] == p[i];
      }
    } else if |s| > 0 {
      ContainsChars(s[1..], p);
      forall i | 0 <= i < |p| && Contains(s[1..], p) ensures p[i] in s {
        assert p[i] in s[1..];
      }
    }
  }

  /** A keyword as long as `s` occurs in `s` only as `s` itself. */
  lemma ContainsSameLength(s: string, p: string)
    requires |p| == |s| && p != s
    ensures !Contains(s, p)
  {
    if |s| > 0 {
      ContainsChars(s[1..], p);
    }
  }

  /** A keyword with a character that `s` lacks does not occur in `s`. */
  lemma AbsentCharExcludes(s: string, p: string, i: nat)
    requires i < |p| && p[i] !in s
    ensures !Contains(s, p)
  {
    ContainsChars(s, p);
  }

  /** Some keyword of `kws` occurs in `s`. */
  predicate MatchesAny(s: string, kws: seq<string>)
    decreases |kws|
  {
    |kws| > 0 && (Contains(s, kws[0]) || MatchesAny(s, kws[1..]))
  }

  // ---------------------------------------------------------------------
  // Ordered keyword tables: an `if (s.includes(a) || s.includes(b)) return L;`
  // chain is a sequence of rules, and the first rule that matches wins.

  datatype Rule<L> = Rule(keywords: seq<string>, gives: L)

  function FirstMatch<L>(rules: seq<Rule<L>>, s: string, default: L): L
    decreases |rules|
  {
    if |rules| == 0 then default
    else if MatchesAny(s, rules[0].keywords) then rules[0].gives
    else FirstMatch(rules[1..], s, default)
  }

  /** The index of the first rule that matches `s`, or `|rules|` when none does. */
  function FirstMatchIndex<L>(rules: seq<Rule<L>>, s: string): (i: nat)
    ensures i <= |rules|
    ensures i < |rules| ==> MatchesAny(s, rules[i].keywords)
    ensures forall j :: 0 <= j < i ==> !MatchesAny(s, rules[j].keywords)
    decreases |rules|
  {
    if |rules| == 0 then 0
    else if MatchesAny(s, rules[0].keywords) then 0
    else 1 + FirstMatchIndex(rules[1..], s)
  }

  /** A keyword chain returns the label of its earliest matching rule and
      the default exactly when no rule matches. */
  lemma {:induction false} FirstMatchIsEarliest<L>(rules: seq<Rule<L>>, s: string, default: L)
    ensures var i := FirstMatchIndex(rules, s);
      FirstMatch(rules, s, default) == if i < |rules| then rules[i].gives else default
    decreases |rules|
  {
    if |rules| > 0 && !MatchesAny(s, rules[0].keywords) {
      FirstMatchIsEarliest(rules[1..], s, default);
    }
  }

  /** The earliest matching rule decides, whatever later rules would say. */
  lemma FirstMatchAt<L>(rules: seq<Rule<L>>, s: string, default: L, i: nat)
    requires i < |rules| && MatchesAny(s, rules[i].keywords)
    requires forall j :: 0 <= j < i ==> !MatchesAny(s, rules[j].keywords)
    ensures FirstMatch(rules, s, default) == rules[i].gives
  {
    FirstMatchIsEarliest(rules, s, default);
  }

  /** When no rule matches, the chain falls through to its default. */
  lemma NoMatchGivesDefault<L>(rules: seq<Rule<L>>, s: string, default: L)
    requires forall j :: 0 <= j < |rules| ==> !MatchesAny(s, rules[j].keywords)
    ensures FirstMatch(rules, s, default) == default
  {
    FirstMatchIsEarliest(rules, s, default);
  }

  /** When a label belongs to one rule only and is not the default, the
      chain returns it exactly when that rule is the earliest that matches. */
  lemma FirstMatchUniqueLabel<L>(rules: seq<Rule<L>>, s: string, default: L, i: nat)
    requires i < |rules| && rules[i].gives != default
    requires forall j :: 0 <= j < |rules| && j != i ==> rules[j].gives != rules[i].gives
    ensures FirstMatch(rules, s, default) == rules[i].gives
        <==> MatchesAny(s, rules[i].keywords) && forall j :: 0 <= j < i ==> !MatchesAny(s, rules[j].keywords)
  {
    FirstMatchIsEarliest(rules, s, default);
  }

  // ---------------------------------------------------------------------
  // trim

  function TrimStart(s: string): (r: string)
    ensures |r| <= |s| && r == s[|s| - |r|..]
    ensures r == [] || !IsSpace(r[0])
    decreases |s|
  {
    if |s| > 0 && IsSpace(s[0]) then TrimStart(s[1..]) else s
  }

  function TrimEnd(s: string): (r: string)
    ensures |r| <= |s| && r == s[..|r|]
    ensures r == [] || !IsSpace(r[|r| - 1])
    decreases |s|
  {
    if |s| > 0 && IsSpace(s[|s| - 1]) then TrimEnd(s[..|s| - 1]) else s
  }

  /** `s.trim()`: a contiguous piece of `s` with no white space at either end. */
  function Trim(s: string): (r: string)
    ensures |r| <= |s|
    ensures forall i :: 0 <= i < |r| ==> r[i] in s
    ensures r == [] || (!IsSpace(r[0]) && !IsSpace(r[|r| - 1]))
  {
    var t := TrimStart(s);
    var r := TrimEnd(t);
    forall i | 0 <= i < |r| ensures r[i] in s {
      assert r[i] == t[i] == s[|s| - |t| + i];
    }
    r
  }

  lemma TrimKeepsAbsentChar(s: string, c: char)
    requires c !in s
    ensures c !in Trim(s)
  {
    var r := Trim(s);
    forall i | 0 <= i < |r| ensures r[i] != c {
      assert r[i] in s;
    }
  }

  // ---------------------------------------------------------------------
  // split / join

  /** `s.split(d)` for a one-character separator. */
  function Split(s: string, d: char): (parts: seq<string>)
    ensures |parts| >= 1
    ensures forall i :: 0 <= i < |parts| ==> d !in parts[i]
    decreases |s|
  {
    if |s| == 0 then [""]
    else
      var rest := Split(s[1..], d);
      if s[0] == d then [""] + rest
      else [[s[0]] + rest[0]] + rest[1..]
  }

  /** `parts.join(sep)` */
  function Join(parts: seq<string>, sep: string): string
    decreases |parts|
  {
    if |parts| == 0 then ""
    else if |parts| == 1 then parts[0]
    else parts[0] + sep + Join(parts[1..], sep)
  }

  /** Splitting on a character and joining with it again gives back the input. */
  lemma {:induction false} SplitJoin(s: string, d: char)
    ensures Join(Split(s, d), [d]) == s
    decreases |s|
  {
    if |s| > 0 {
      var rest := Split(s[1..], d);
      SplitJoin(s[1..], d);
      if s[0] == d {
        assert Split(s, d) == [""] + rest;
        assert ([""] + rest)[1..] == rest;
        assert s == [d] + s[1..];
      } else {
        var parts := [[s[0]] + rest[0]] + rest[1..];
        assert Split(s, d) == parts;
        if |rest| == 1 {
          assert s == [s[0]] + s[1..];
        } else {
          assert parts[1..] == rest[1..];
          assert Join(rest, [d]) == rest[0] + [d] + Join(rest[1..], [d]);
          assert s == [s[0]] + s[1..];
        }
      }
    }
  }

  /** A string without the separator splits into itself alone. */
  lemma {:induction false} SplitWithoutSeparator(s: string, d: char)
    requires d !in s
    ensures Split(s, d) == [s]
    decreases |s|
  {
    if |s| > 0 {
      assert d !in s[1..];
      SplitWithoutSeparator(s[1..], d);
      assert [s[0]] + s[1..] == s;
    }
  }

  // ---------------------------------------------------------------------
  // Counting characters

  function CountChar(s: string, c: char): nat
    decreases |s|
  {
    if |s| == 0 then 0 else (if s[0] == c then 1 else 0) + CountChar(s[1..], c)
  }

  lemma {:induction false} CountCharAppend(a: string, b: string, c: char)
    ensures CountChar(a + b, c) == CountChar(a, c) + CountChar(b, c)
    decreases |a|
  {
    if |a| > 0 {
      assert (a + b)[1..] == a[1..] + b;
      CountCharAppend(a[1..], b, c);
    } else {
      assert a + b == b;
    }
  }

  lemma {:induction false} CountCharAbsent(s: string, c: char)
    requires c !in s
    ensures CountChar(s, c) == 0
    decreases |s|
  {
    if |s| > 0 {
      assert c !in s[1..];
      CountCharAbsent(s[1..], c);
    }
  }

  // ---------------------------------------------------------------------
  // The two regular-expression rewrites used for display labels

  /** `s.replace(/_/g, ' ')` */
  function ReplaceUnderscores(s: string): (r: string)
    ensures |r| == |s| && '_' !in r
    ensures forall i :: 0 <= i < |s| ==> r[i] == if s[i] == '_' then ' ' else s[i]
  {
    seq(|s|, i requires 0 <= i < |s| => if s[i] == '_' then ' ' else s[i])
  }

  /** Position `i` of `s` is matched by `\b\w`: a word character whose
      left neighbour is not one (or the start of the string). */
  predicate WordStart(s: string, i: int)
    requires 0 <= i < |s|
  {
    IsWordChar(s[i]) && (i == 0 || !IsWordChar(s[i - 1]))
  }

  /** `s.replace(/\b\w/g, l => l.toUpperCase())`; `\w` is ASCII-only, so only
      ASCII characters are ever upper-cased and the length never changes. */
  function CapitalizeWords(s: string): (r: string)
    ensures |r| == |s|
  {
    seq(|s|, i requires 0 <= i < |s| => if WordStart(s, i) then UpperChar(s[i]) else s[i])
  }

  /** `text.replace(/_/g, ' ').replace(/\b\w/g, l => l.toUpperCase())` */
  function FormatWords(s: string): (r: string)
  {
    CapitalizeWords(ReplaceUnderscores(s))
  }

  /** The display rewrite keeps the length, leaves no underscore, turns every
      underscore into a space and upper-cases exactly the word-initial
      characters of the underscore-free text; everything else is unchanged. */
  lemma FormatWordsShape(s: string)
    ensures var r := FormatWords(s);
      && |r| == |s|
      && '_' !in r
      && (forall i :: 0 <= i < |s| && s[i] == '_' ==> r[i] == ' ')
      && (forall i :: 0 <= i < |s| && s[i] != '_' ==>
            r[i] == if WordStart(ReplaceUnderscores(s), i) then UpperChar(s[i]) else s[i])
  {
    var t := ReplaceUnderscores(s);
    var r := FormatWords(s);
    forall i | 0 <= i < |r| ensures r[i] != '_' {
      assert r[i] == if WordStart(t, i) then UpperChar(t[i]) else t[i];
    }
  }

  /** Formatting an already formatted label changes nothing. */
  lemma FormatWordsIdempotent(s: string)
    ensures FormatWords(FormatWords(s)) == FormatWords(s)
  {
    var t := ReplaceUnderscores(s);
    var r := CapitalizeWords(t);
    FormatWordsShape(s);
    assert ReplaceUnderscores(r) == r;
    forall i | 0 <= i < |r| ensures WordStart(r, i) <==> WordStart(t, i) {
      assert IsWordChar(r[i]) <==> IsWordChar(t[i]);
      if i > 0 {
        assert IsWordChar(r[i - 1]) <==> IsWordChar(t[i - 1]);
      }
    }
    assert CapitalizeWords(r) == r;
  }

  lemma FormatWordsKeepsAbsentComma(s: string)
    requires ',' !in s
    ensures ',' !in FormatWords(s)
  {
    var t := ReplaceUnderscores(s);
    var r := FormatWords(s);
    forall i | 0 <= i < |r| ensures r[i] != ',' {
      assert t[i] != ',';
    }
  }

  // ---------------------------------------------------------------------
  // `type.split(',').map(t => t.trim()....).slice(0, 2).join(', ')`

  function FormatPart(p: string): string {
    FormatWords(Trim(p))
  }

  function FormatAll(parts: seq<string>): (r: seq<string>)
    ensures |r| == |parts|
    ensures forall i :: 0 <= i < |parts| ==> r[i] == FormatPart(parts[i])
  {
    seq(|parts|, i requires 0 <= i < |parts| => FormatPart(parts[i]))
  }

  /** The shared shape of the screens' `formatServiceType` / `formatPlaceType`:
      `default` for an empty type, otherwise the first two comma-separated
      parts, each trimmed and title-cased. */
  function FormatTypeList(t: string, default: string): string {
    if t == "" then default
    else
      var formatted := FormatAll(Split(t, ','));
      Join(formatted[..if |formatted| < 2 then |formatted| else 2], ", ")
  }

  /** A formatted type list is the formatted first part, followed by
      `", "` and the formatted second part when the type has a comma. */
  lemma TypeListParts(t: string, default: string)
    requires t != ""
    ensures var parts := Split(t, ',');
      FormatTypeList(t, default) ==
        if |parts| == 1 then FormatPart(parts[0])
        else FormatPart(parts[0]) + ", " + FormatPart(parts[1])
  {
    var parts := Split(t, ',');
    var f := FormatAll(parts);
    assert FormatTypeList(t, default) == Join(f[..if |f| < 2 then |f| else 2], ", ");
    if |parts| >= 2 {
      var two := f[..2];
      assert two == [f[0], f[1]];
      assert two[1..] == [f[1]];
      assert Join(two, ", ") == two[0] + ", " + Join(two[1..], ", ");
    } else {
      assert f[..1] == [f[0]];
    }
  }

  /** Whatever the type, a formatted type list carries at most one comma:
      the parts come from splitting on commas and formatting adds none. */
  lemma TypeListAtMostOneComma(t: string, default: string)
    requires CountChar(default, ',') <= 1
    ensures CountChar(FormatTypeList(t, default), ',') <= 1
  {
    if t != "" {
      var parts := Split(t, ',');
      TypeListParts(t, default);
      TrimKeepsAbsentChar(parts[0], ',');
      FormatWordsKeepsAbsentComma(Trim(parts[0]));
      CountCharAbsent(FormatPart(parts[0]), ',');
      if |parts| >= 2 {
        TrimKeepsAbsentChar(parts[1], ',');
        FormatWordsKeepsAbsentComma(Trim(parts[1]));
        CountCharAbsent(FormatPart(parts[1]), ',');
        CountCharAppend(FormatPart(parts[0]), ", ", ',');
        CountCharAppend(FormatPart(parts[0]) + ", ", FormatPart(parts[1]), ',');
      }
    }
  }

  // ---------------------------------------------------------------------
  // Numbers as text

  function DigitChar(d: nat): char
    requires d < 10
  {
    "0123456789"[d]
  }

  function NatToString(n: nat): (r: string)
    ensures |r| >= 1
    decreases n
  {
    if n < 10 then [DigitChar(n)] else NatToString(n / 10) + [DigitChar(n % 10)]
  }

  /** `String(n)` for an integer `n` (below 10^21, where JavaScript switches
      to exponent notation). */
  function IntToString(n: int): (r: string)
    ensures |r| >= 1
  {
    if n < 0 then "-" + NatToString(-n) else NatToString(n)
  }

  /** `Math.round(x)`: the nearest integer, halves rounded up. */
  function Round(x: real): (n: int)
    ensures x - 0.5 < n as real <= x + 0.5
  {
    (x + 0.5).Floor
  }

  // ---------------------------------------------------------------------
  // Counting

  /** `s.filter(p).length` */
  function Count<T>(s: seq<T>, p: T -> bool): (n: nat)
    ensures n <= |s|
    decreases |s|
  {
    if |s| == 0 then 0 else Count(s[..|s| - 1], p) + (if p(s[|s| - 1]) then 1 else 0)
  }

  /** A filter count is positive exactly when some element passes the filter. */
  lemma {:induction false} CountPositive<T>(s: seq<T>, p: T -> bool)
    ensures Count(s, p) > 0 <==> exists i :: 0 <= i < |s| && p(s[i])
    decreases |s|
  {
    if |s| > 0 {
      var q := s[..|s| - 1];
      CountPositive(q, p);
      assert forall i :: 0 <= i < |q| ==> q[i] == s[i];
    }
  }

  /** `new Set(s.map(f)).size` */
  function DistinctImage<T, K>(s: seq<T>, f: T -> K): (ks: set<K>)
    ensures |ks| <= |s|
    ensures forall i :: 0 <= i < |s| ==> f(s[i]) in ks
    ensures forall k :: k in ks ==> exists i :: 0 <= i < |s| && f(s[i]) == k
    decreases |s|
  {
    if |s| == 0 then {}
    else
      var p := s[..|s| - 1];
      var prev := DistinctImage(p, f);
      assert forall k :: k in prev ==> exists i :: 0 <= i < |s| && f(s[i]) == k by {
        forall k | k in prev ensures exists i :: 0 <= i < |s| && f(s[i]) == k {
          var i :| 0 <= i < |p| && f(p[i]) == k;
          assert s[i] == p[i];
        }
      }
      prev + {f(s[|s| - 1])}
  }
}
