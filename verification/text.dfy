/** String operations the apps rely on from the JavaScript runtime: decimal
    rendering of numbers in template strings, `split("\n")`, `trim()`,
    `filter(Boolean)` over strings, and `toLowerCase()`. */
module Text {

  // ---------------------------------------------------------------------
  // Decimal rendering

  predicate IsDigit(c: char) {
    '0' <= c <= '9'
  }

  function DigitChar(d: nat): (c: char)
    requires d < 10
    ensures IsDigit(c)
  {
    "0123456789"[d]
  }

  function DigitValue(c: char): nat
    requires IsDigit(c)
  {
    (c as int - '0' as int) as nat
  }

  /** The decimal numeral of `n`, without leading zeros. */
  function NatToString(n: nat): (s: string)
    ensures |s| >= 1
    ensures forall i :: 0 <= i < |s| ==> IsDigit(s[i])
    ensures |s| > 1 ==> s[0] != '0'
  {
    if n < 10 then [DigitChar(n)] else NatToString(n / 10) + [DigitChar(n % 10)]
  }

  /** The value a string of digits denotes. */
  function DigitsValue(s: string): nat
    requires forall i :: 0 <= i < |s| ==> IsDigit(s[i])
  {
    if s == [] then 0 else 10 * DigitsValue(s[..|s| - 1]) + DigitValue(s[|s| - 1])
  }

  lemma {:induction false} NatToStringRoundTrip(n: nat)
    ensures DigitsValue(NatToString(n)) == n
  {
    var s := NatToString(n);
    if n < 10 {
      assert DigitValue(DigitChar(n)) == n;
    } else {
      NatToStringRoundTrip(n / 10);
      assert s[..|s| - 1] == NatToString(n / 10);
      assert DigitValue(DigitChar(n % 10)) == n % 10;
    }
  }

  /** Distinct numbers render as distinct numerals. */
  lemma NatToStringInjective(m: nat, n: nat)
    requires NatToString(m) == NatToString(n)
    ensures m == n
  {
    NatToStringRoundTrip(m);
    NatToStringRoundTrip(n);
  }

  /** A JavaScript integer in a template string. */
  function IntToString(i: int): (s: string)
    ensures i >= 0 ==> s == NatToString(i)
    ensures i < 0 ==> s == "-" + NatToString(-i)
  {
    if i < 0 then "-" + NatToString(-i) else NatToString(i)
  }

  // ---------------------------------------------------------------------
  // split / join

  /** `s.split(sep)` for a one-character separator: the pieces between
      separators, always at least one. */
  function Split(s: string, sep: char): (r: seq<string>)
    ensures |r| >= 1
    ensures forall k :: 0 <= k < |r| ==> sep !in r[k]
  {
    if s == [] then [""]
    else
      var rest := Split(s[1..], sep);
      if s[0] == sep then [""] + rest
      else [[s[0]] + rest[0]] + rest[1..]
  }

  /** `pieces.join(sep)` */
  function Join(pieces: seq<string>, sep: char): string
    requires |pieces| >= 1
  {
    if |pieces| == 1 then pieces[0] else pieces[0] + [sep] + Join(pieces[1..], sep)
  }

  /** Splitting loses nothing: joining the pieces back gives the input. */
  lemma {:induction false} JoinSplit(s: string, sep: char)
    ensures Join(Split(s, sep), sep) == s
  {
    if s != [] {
      var rest := Split(s[1..], sep);
      JoinSplit(s[1..], sep);
      if s[0] == sep {
        assert Split(s, sep)[1..] == rest;
      } else {
        var r := Split(s, sep);
        if |rest| == 1 {
          assert r == [[s[0]] + rest[0]];
        } else {
          assert r[1..] == rest[1..];
          assert Join(rest, sep) == rest[0] + [sep] + Join(rest[1..], sep);
        }
      }
    }
  }

  /** A string without the separator is one piece. */
  lemma {:induction false} SplitNoSeparator(s: string, sep: char)
    requires sep !in s
    ensures Split(s, sep) == [s]
  {
    if s != [] {
      SplitNoSeparator(s[1..], sep);
      assert [s[0]] + s[1..] == s;
    }
  }

  // ---------------------------------------------------------------------
  // trim

  /** The characters `String.prototype.trim` removes: the white-space and
      line-terminator code points of ECMAScript. */
  predicate IsSpace(c: char) {
    c == '\t' || c == '\n' || c == '\U{000B}' || c == '\U{000C}' || c == '\r' || c == ' ' ||
    c == '\U{00A0}' || c == '\U{1680}' || ('\U{2000}' <= c <= '\U{200A}') ||
    c == '\U{2028}' || c == '\U{2029}' || c == '\U{202F}' || c == '\U{205F}' ||
    c == '\U{3000}' || c == '\U{FEFF}'
  }

  predicate AllSpace(s: string) {
    forall i :: 0 <= i < |s| ==> IsSpace(s[i])
  }

  /** Trimmed: empty, or starting and ending with a non-space character. */
  predicate Trimmed(s: string) {
    s == [] || (!IsSpace(s[0]) && !IsSpace(s[|s| - 1]))
  }

  /** The number of leading white-space characters. */
  function LeadingSpace(s: string): (n: nat)
    ensures n <= |s| && AllSpace(s[..n])
    ensures n < |s| ==> !IsSpace(s[n])
  {
    if s == [] || !IsSpace(s[0]) then 0
    else
      1 + LeadingSpace(s[1..])
  }

  /** The number of trailing white-space characters. */
  function TrailingSpace(s: string): (n: nat)
    ensures n <= |s| && AllSpace(s[|s| - n..])
    ensures n < |s| ==> !IsSpace(s[|s| - n - 1])
  {
    if s == [] || !IsSpace(s[|s| - 1]) then 0
    else
      1 + TrailingSpace(s[..|s| - 1])
  }

  /** `s.trim()`: the leading and trailing white space removed.  The result
      is the slice of `s` starting after its leading white space. */
  function Trim(s: string): (r: string)
    ensures Trimmed(r)
    ensures LeadingSpace(s) + |r| <= |s| && r == s[LeadingSpace(s)..LeadingSpace(s) + |r|]
    ensures AllSpace(s[LeadingSpace(s) + |r|..])
  {
    var i := LeadingSpace(s);
    var t := s[i..];
    var j := TrailingSpace(t);
    assert t[|t| - j..] == s[i + |t| - j..];
    t[..|t| - j]
  }

  lemma TrimOfTrimmed(s: string)
    requires Trimmed(s)
    ensures Trim(s) == s
  {
  }

  /** Trimming twice is trimming once. */
  lemma TrimIdempotent(s: string)
    ensures Trim(Trim(s)) == Trim(s)
  {
    TrimOfTrimmed(Trim(s));
  }

  /** Only an all-white-space string trims to the empty string. */
  lemma TrimEmpty(s: string)
    ensures Trim(s) == "" <==> AllSpace(s)
  {
  }

  /** A character of the trimmed string is a character of the input. */
  lemma TrimKeepsOut(s: string, c: char)
    requires c !in s
    ensures c !in Trim(s)
  {
  }

  // ---------------------------------------------------------------------
  // rosters

  /** The names kept from a list of lines: each trimmed, empty ones dropped. */
  function TrimNonEmpty(lines: seq<string>): (r: seq<string>)
    ensures |r| <= |lines|
    ensures forall k :: 0 <= k < |r| ==> r[k] != "" && Trimmed(r[k])
  {
    if lines == [] then []
    else
      var rest := TrimNonEmpty(lines[..|lines| - 1]);
      var t := Trim(lines[|lines| - 1]);
      if t == "" then rest else rest + [t]
  }

  /** `roster.split("\n").map(s => s.trim()).filter(Boolean)`: one player
      per non-blank line, without surrounding white space. */
  function ParseRoster(roster: string): (r: seq<string>)
    ensures forall k :: 0 <= k < |r| ==> r[k] != "" && Trimmed(r[k]) && '\n' !in r[k]
  {
    var lines := Split(roster, '\n');
    var r := TrimNonEmpty(lines);
    TrimNonEmptyNoNewline(lines);
    r
  }

  lemma {:induction false} TrimNonEmptyNoNewline(lines: seq<string>)
    requires forall k :: 0 <= k < |lines| ==> '\n' !in lines[k]
    ensures forall k :: 0 <= k < |TrimNonEmpty(lines)| ==> '\n' !in TrimNonEmpty(lines)[k]
  {
    if lines != [] {
      var init := lines[..|lines| - 1];
      TrimNonEmptyNoNewline(init);
      TrimKeepsOut(lines[|lines| - 1], '\n');
    }
  }

  /** A line of names with blanks around it gives exactly its trimmed name. */
  lemma ParseRosterSingleLine(roster: string)
    requires '\n' !in roster && !AllSpace(roster)
    ensures ParseRoster(roster) == [Trim(roster)]
  {
    SplitNoSeparator(roster, '\n');
    TrimEmpty(roster);
    assert [roster][..0] == [];
  }

  /** Two lines, each holding a name, give both names in order. */
  lemma ParseRosterTwoLines(a: string, b: string)
    requires '\n' !in a && '\n' !in b && !AllSpace(a) && !AllSpace(b)
    ensures ParseRoster(a + "\n" + b) == [Trim(a), Trim(b)]
  {
    var s := a + "\n" + b;
    SplitConcat(a, b, '\n');
    TrimEmpty(a);
    TrimEmpty(b);
    assert Split(s, '\n') == [a, b];
    assert [a, b][..1] == [a];
    assert [a][..0] == [];
    assert TrimNonEmpty([a]) == [Trim(a)];
  }

  /** Names joined with the separator split back into the same names. */
  lemma {:induction false} SplitJoin(names: seq<string>, sep: char)
    requires |names| >= 1
    requires forall k :: 0 <= k < |names| ==> sep !in names[k]
    ensures Split(Join(names, sep), sep) == names
  {
    if |names| == 1 {
      SplitNoSeparator(names[0], sep);
    } else {
      SplitJoin(names[1..], sep);
      SplitCons(names[0], Join(names[1..], sep), sep);
      assert names == [names[0]] + names[1..];
    }
  }

  /** Names already trimmed and non-empty pass through unchanged. */
  lemma {:induction false} TrimNonEmptyKeeps(names: seq<string>)
    requires forall k :: 0 <= k < |names| ==> names[k] != "" && Trimmed(names[k])
    ensures TrimNonEmpty(names) == names
  {
    if names != [] {
      TrimNonEmptyKeeps(names[..|names| - 1]);
      TrimOfTrimmed(names[|names| - 1]);
    }
  }

  /** A roster written one name per line parses back to those names, in
      order. */
  lemma ParseRosterRoundTrip(names: seq<string>)
    requires |names| >= 1
    requires forall k :: 0 <= k < |names| ==> names[k] != "" && Trimmed(names[k]) && '\n' !in names[k]
    ensures ParseRoster(Join(names, '\n')) == names
  {
    SplitJoin(names, '\n');
    TrimNonEmptyKeeps(names);
  }

  /** A first piece without the separator splits off on its own. */
  lemma {:induction false} SplitCons(a: string, rest: string, sep: char)
    requires sep !in a
    ensures Split(a + [sep] + rest, sep) == [a] + Split(rest, sep)
  {
    if a == [] {
      assert ([sep] + rest)[1..] == rest;
    } else {
      SplitCons(a[1..], rest, sep);
      assert (a + [sep] + rest)[1..] == a[1..] + [sep] + rest;
      assert [a[0]] + a[1..] == a;
    }
  }

  lemma SplitConcat(a: string, b: string, sep: char)
    requires sep !in a && sep !in b
    ensures Split(a + [sep] + b, sep) == [a, b]
  {
    SplitCons(a, b, sep);
    SplitNoSeparator(b, sep);
  }

  // ---------------------------------------------------------------------
  // case

  function LowerChar(c: char): char {
    if 'A' <= c <= 'Z' then (c as int + 32) as char else c
  }

  /** `s.toLowerCase()` on the ASCII letters. */
  function ToLower(s: string): (r: string)
    ensures |r| == |s|
    ensures forall i :: 0 <= i < |s| ==> r[i] == LowerChar(s[i])
  {
    if s == [] then [] else [LowerChar(s[0])] + ToLower(s[1..])
  }

  /** Case-insensitive equality, as `a.toLowerCase() === b.toLowerCase()`. */
  predicate SameIgnoringCase(a: string, b: string) {
    ToLower(a) == ToLower(b)
  }

  /** Lower-casing twice is lower-casing once, so the comparison is an
      equivalence that identifies a name with its lower-case form. */
  lemma ToLowerIdempotent(s: string)
    ensures ToLower(ToLower(s)) == ToLower(s)
  {
  }

  lemma SameIgnoringCaseLower(s: string)
    ensures SameIgnoringCase(s, ToLower(s))
  {
    ToLowerIdempotent(s);
  }
}
