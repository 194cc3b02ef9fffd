/**
  The string operations the pages use: `toLowerCase`, `includes`, `trim`,
  `join` and a global `String.prototype.replace` with a literal pattern. The
  pages never call `split`; Split is an auxiliary description of the global
  replace (the text cut at each match of the pattern).
 */
module Text {

  // ---------------------------------------------------------------------------
  // toLowerCase and includes
  // ---------------------------------------------------------------------------

  function LowerChar(c: char): char {
    if 'A' <= c <= 'Z' then (c as int + 32) as char else c
  }

  /** `toLowerCase`, on the ASCII letters. */
  function ToLower(s: string): (r: string)
    ensures |r| == |s|
    ensures forall i :: 0 <= i < |s| ==> r[i] == LowerChar(s[i])
  {
    seq(|s|, i requires 0 <= i < |s| => LowerChar(s[i]))
  }

  predicate StartsWith(s: string, prefix: string) {
    |prefix| <= |s| && s[..|prefix|] == prefix
  }

  /** `hay.includes(needle)` */
  predicate Contains(hay: string, needle: string)
    decreases |hay|
  {
    StartsWith(hay, needle) || (hay != [] && Contains(hay[1..], needle))
  }

  /** `hay.toLowerCase().includes(query.toLowerCase())` */
  predicate ContainsIgnoreCase(hay: string, query: string) {
    Contains(ToLower(hay), ToLower(query))
  }

  /** The needle occurs in hay at position i. */
  predicate OccursAt(hay: string, needle: string, i: int) {
    0 <= i <= |hay| - |needle| && hay[i..i + |needle|] == needle
  }

  /** `includes` holds exactly when the needle occurs at some position. */
  lemma {:induction false} ContainsAt(hay: string, needle: string)
    ensures Contains(hay, needle) <==> exists i :: OccursAt(hay, needle, i)
    decreases |hay|
  {
    if StartsWith(hay, needle) {
      assert OccursAt(hay, needle, 0);
    }
    if hay != [] {
      ContainsAt(hay[1..], needle);
      if Contains(hay[1..], needle) {
        var i :| OccursAt(hay[1..], needle, i);
        assert hay[i + 1..i + 1 + |needle|] == hay[1..][i..i + |needle|];
        assert OccursAt(hay, needle, i + 1);
      }
      if exists i :: OccursAt(hay, needle, i) {
        var i :| OccursAt(hay, needle, i);
        if i > 0 {
          assert hay[1..][i - 1..i - 1 + |needle|] == hay[i..i + |needle|];
          assert OccursAt(hay[1..], needle, i - 1);
        } else {
          assert StartsWith(hay, needle);
        }
      }
    } else {
      if exists i :: OccursAt(hay, needle, i) {
        var i :| OccursAt(hay, needle, i);
        assert StartsWith(hay, needle);
      }
    }
  }

  /** The empty string is found in every string, so an empty search query
      keeps every row of a table. */
  lemma {:induction false} EmptyQueryMatches(hay: string)
    ensures ContainsIgnoreCase(hay, "")
  {
    assert ToLower("") == [];
    assert StartsWith(ToLower(hay), []);
  }

  lemma {:induction false} ShortNeverContains(hay: string, needle: string)
    requires |hay| < |needle|
    ensures !Contains(hay, needle)
    decreases |hay|
  {
    if hay != [] {
      ShortNeverContains(hay[1..], needle);
    }
  }

  // ---------------------------------------------------------------------------
  // decimal rendering of a non-negative integer, as in `${Date.now()}`
  // ---------------------------------------------------------------------------

  predicate IsDigit(c: char) {
    '0' <= c <= '9'
  }

  function DigitChar(d: nat): (c: char)
    requires d < 10
    ensures IsDigit(c)
  {
    ('0' as int + d) as char
  }

  /** The decimal digits of n, most significant first, without leading zeros. */
  function NatToString(n: nat): (r: string)
    ensures |r| > 0
    ensures forall i :: 0 <= i < |r| ==> IsDigit(r[i])
    ensures |r| > 1 ==> r[0] != '0'
    decreases n
  {
    if n < 10 then [DigitChar(n)] else NatToString(n / 10) + [DigitChar(n % 10)]
  }

  // ---------------------------------------------------------------------------
  // Number.parseInt on the text of a number input
  // ---------------------------------------------------------------------------

  /** A JavaScript number that came from parseInt: NaN or an integer. */
  datatype JsInt = NaN | Num(value: int) {
    /** JavaScript truthiness: NaN and 0 are falsy. */
    predicate Truthy() {
      Num? && value != 0
    }
  }

  /** The longest prefix of s made of decimal digits. */
  function DigitPrefix(s: string): (ds: string)
    ensures |ds| <= |s| && ds == s[..|ds|]
    ensures forall i :: 0 <= i < |ds| ==> IsDigit(ds[i])
    ensures |ds| < |s| ==> !IsDigit(s[|ds|])
  {
    if s != [] && IsDigit(s[0]) then [s[0]] + DigitPrefix(s[1..]) else []
  }

  /** The value of a string of decimal digits. */
  function DigitsValue(ds: string): nat
    requires forall i :: 0 <= i < |ds| ==> IsDigit(ds[i])
    decreases |ds|
  {
    if ds == [] then 0
    else
      assert IsDigit(ds[|ds| - 1]);
      10 * DigitsValue(ds[..|ds| - 1]) + (ds[|ds| - 1] as int - '0' as int)
  }

  /** `Number.parseInt(s)`: leading white space, an optional sign, then the
      longest run of decimal digits; NaN when there is none. */
  function ParseInt(s: string): JsInt {
    var t := TrimStart(s);
    var negative := t != [] && t[0] == '-';
    var rest := if t != [] && (t[0] == '-' || t[0] == '+') then t[1..] else t;
    var ds := DigitPrefix(rest);
    if ds == [] then NaN
    else if negative then Num(-(DigitsValue(ds) as int))
    else Num(DigitsValue(ds))
  }

  lemma {:induction false} DigitPrefixOf(ds: string, rest: string)
    requires forall i :: 0 <= i < |ds| ==> IsDigit(ds[i])
    requires rest == [] || !IsDigit(rest[0])
    ensures DigitPrefix(ds + rest) == ds
    decreases |ds|
  {
    if ds != [] {
      assert (ds + rest)[1..] == ds[1..] + rest;
      DigitPrefixOf(ds[1..], rest);
    } else {
      assert ds + rest == rest;
    }
  }

  lemma {:induction false} DigitsValueOfNat(n: nat)
    ensures DigitsValue(NatToString(n)) == n
    decreases n
  {
    if n >= 10 {
      var ds := NatToString(n);
      assert ds[..|ds| - 1] == NatToString(n / 10);
      DigitsValueOfNat(n / 10);
    } else {
      var ds := NatToString(n);
      assert ds[..0] == [];
    }
  }

  /** A run of digits followed by a non-digit, with no sign and no leading
      white space, parses to the run's value. */
  lemma {:induction false} ParseUnsigned(ds: string, rest: string)
    requires ds != [] && forall i :: 0 <= i < |ds| ==> IsDigit(ds[i])
    requires rest == [] || !IsDigit(rest[0])
    ensures ParseInt(ds + rest) == Num(DigitsValue(ds))
  {
    DigitPrefixOf(ds, rest);
    var t := ds + rest;
    assert t[0] == ds[0];
    assert IsDigit(t[0]) && !IsWhite(t[0]);
    assert TrimStart(t) == t;
  }

  /** The same run after a minus sign parses to the negated value. */
  lemma {:induction false} ParseNegative(ds: string, rest: string)
    requires ds != [] && forall i :: 0 <= i < |ds| ==> IsDigit(ds[i])
    requires rest == [] || !IsDigit(rest[0])
    ensures ParseInt("-" + ds + rest) == Num(-(DigitsValue(ds) as int))
  {
    DigitPrefixOf(ds, rest);
    var t := "-" + ds + rest;
    assert t[0] == '-' && !IsWhite(t[0]);
    assert TrimStart(t) == t;
    assert t[1..] == ds + rest;
  }

  /** parseInt reads back the decimal text of any integer, with or without a
      minus sign, and stops at the first character that is not a digit (so
      "12.5" reads as 12). */
  lemma {:induction false} ParseIntRoundTrip(n: nat, rest: string)
    requires rest == [] || !IsDigit(rest[0])
    ensures ParseInt(NatToString(n) + rest) == Num(n)
    ensures ParseInt("-" + NatToString(n) + rest) == Num(-(n as int))
  {
    var ds := NatToString(n);
    DigitsValueOfNat(n);
    ParseUnsigned(ds, rest);
    ParseNegative(ds, rest);
  }

  /** An empty input, as a cleared number field gives, parses to NaN. */
  lemma {:induction false} ParseIntEmpty()
    ensures ParseInt("") == NaN
  {
  }

  // ---------------------------------------------------------------------------
  // global replace of a literal pattern: s.replace(new RegExp(pat, "g"), v)
  // ---------------------------------------------------------------------------

  /** Scans left to right; every match of pat is replaced by v and scanning
      resumes after it, so matches never overlap and v is never rescanned. */
  function ReplaceAll(s: string, pat: string, v: string): string
    requires |pat| > 0
    decreases |s|
  {
    if |s| < |pat| then s
    else if s[..|pat|] == pat then v + ReplaceAll(s[|pat|..], pat, v)
    else [s[0]] + ReplaceAll(s[1..], pat, v)
  }

  /** `pieces.join(sep)` */
  function Join(pieces: seq<string>, sep: string): string {
    if |pieces| == 0 then ""
    else if |pieces| == 1 then pieces[0]
    else pieces[0] + sep + Join(pieces[1..], sep)
  }

  /** `s.split(pat)`: the text between the left-to-right, non-overlapping matches. */
  function Split(s: string, pat: string): (pieces: seq<string>)
    requires |pat| > 0
    ensures |pieces| > 0
    decreases |s|
  {
    if |s| < |pat| then [s]
    else if s[..|pat|] == pat then [""] + Split(s[|pat|..], pat)
    else
      var rest := Split(s[1..], pat);
      [[s[0]] + rest[0]] + rest[1..]
  }

  /** Joining the pieces back with the pattern gives the text again. */
  lemma {:induction false} SplitJoin(s: string, pat: string)
    requires |pat| > 0
    ensures Join(Split(s, pat), pat) == s
    decreases |s|
  {
    if |s| < |pat| {
    } else if s[..|pat|] == pat {
      SplitJoin(s[|pat|..], pat);
      var rest := Split(s[|pat|..], pat);
      assert s == pat + s[|pat|..];
      assert ([""] + rest)[1..] == rest;
    } else {
      SplitJoin(s[1..], pat);
      JoinConsChar(s[0], Split(s[1..], pat), pat);
      assert s == [s[0]] + s[1..];
    }
  }

  lemma {:induction false} JoinConsChar(c: char, pieces: seq<string>, sep: string)
    requires |pieces| > 0
    ensures Join([[c] + pieces[0]] + pieces[1..], sep) == [c] + Join(pieces, sep)
  {
    var q := [[c] + pieces[0]] + pieces[1..];
    if |pieces| > 1 {
      assert q[1..] == pieces[1..];
    }
  }

  /** No piece contains the pattern, and no piece before the last one can be
      completed to a match by the first |pat|-1 characters of the match that
      ends it: the matches split off are the leftmost ones. */
  ghost predicate LeftmostPieces(pieces: seq<string>, pat: string)
    requires |pat| > 0
  {
    && (forall k :: 0 <= k < |pieces| ==> !Contains(pieces[k], pat))
    && (forall k :: 0 <= k < |pieces| - 1 ==> !Contains(pieces[k] + pat[..|pat| - 1], pat))
  }

  lemma {:induction false} SplitLeftmost(s: string, pat: string)
    requires |pat| > 0
    ensures LeftmostPieces(Split(s, pat), pat)
    decreases |s|
  {
    var pieces := Split(s, pat);
    if |s| < |pat| {
      ShortNeverContains(s, pat);
    } else if s[..|pat|] == pat {
      SplitLeftmost(s[|pat|..], pat);
      var rest := Split(s[|pat|..], pat);
      ShortNeverContains("", pat);
      ShortNeverContains("" + pat[..|pat| - 1], pat);
      forall k | 0 <= k < |pieces| ensures !Contains(pieces[k], pat) {
        if k > 0 {
          assert pieces[k] == rest[k - 1];
        }
      }
      forall k | 0 <= k < |pieces| - 1 ensures !Contains(pieces[k] + pat[..|pat| - 1], pat) {
        if k > 0 {
          assert pieces[k] == rest[k - 1];
        }
      }
    } else {
      SplitLeftmost(s[1..], pat);
      SplitJoin(s[1..], pat);
      var rest := Split(s[1..], pat);
      var head := [s[0]] + rest[0];
      assert !StartsWith(s, pat);
      if |rest| == 1 {
        assert Join(rest, pat) == rest[0];
        assert head == s;
        assert !Contains(head, pat) by {
          assert head[1..] == rest[0];
        }
      } else {
        assert Join(rest, pat) == rest[0] + pat + Join(rest[1..], pat);
        // head + pat is a prefix of s, so head cannot start with pat
        var w := head + pat[..|pat| - 1];
        assert w[1..] == rest[0] + pat[..|pat| - 1];
        assert !StartsWith(w, pat);
        assert !Contains(w, pat);
        assert !Contains(head, pat) by {
          assert head[1..] == rest[0];
        }
      }
      forall k | 1 <= k < |pieces| ensures pieces[k] == rest[k] { }
    }
  }

  /** Global replace is split-then-join: every leftmost match is replaced by v
      and the text between matches is kept as it is. */
  lemma {:induction false} ReplaceAllIsSplitJoin(s: string, pat: string, v: string)
    requires |pat| > 0
    ensures ReplaceAll(s, pat, v) == Join(Split(s, pat), v)
    decreases |s|
  {
    if |s| < |pat| {
    } else if s[..|pat|] == pat {
      ReplaceAllIsSplitJoin(s[|pat|..], pat, v);
      var rest := Split(s[|pat|..], pat);
      assert ([""] + rest)[1..] == rest;
    } else {
      ReplaceAllIsSplitJoin(s[1..], pat, v);
      JoinConsChar(s[0], Split(s[1..], pat), v);
    }
  }

  /** Text in which the pattern does not occur is left unchanged. */
  lemma {:induction false} ReplaceAllAbsent(s: string, pat: string, v: string)
    requires |pat| > 0 && !Contains(s, pat)
    ensures ReplaceAll(s, pat, v) == s
    decreases |s|
  {
    if |s| >= |pat| {
      assert !StartsWith(s, pat);
      ReplaceAllAbsent(s[1..], pat, v);
      assert s == [s[0]] + s[1..];
    }
  }

  /** Replacing a pattern by itself changes nothing. */
  lemma {:induction false} ReplaceAllSelf(s: string, pat: string)
    requires |pat| > 0
    ensures ReplaceAll(s, pat, pat) == s
    decreases |s|
  {
    if |s| >= |pat| {
      if s[..|pat|] == pat {
        ReplaceAllSelf(s[|pat|..], pat);
        assert s == pat + s[|pat|..];
      } else {
        ReplaceAllSelf(s[1..], pat);
        assert s == [s[0]] + s[1..];
      }
    }
  }

  // ---------------------------------------------------------------------------
  // a table of replacements applied one entry after another
  // ---------------------------------------------------------------------------

  ghost predicate NonEmptyPatterns(table: seq<(string, string)>) {
    forall k :: 0 <= k < |table| ==> |table[k].0| > 0
  }

  /** `for (const [key, value] of table) s = s.replace(new RegExp(key, "g"), value)` */
  function ReplaceEach(s: string, table: seq<(string, string)>): string
    requires forall k :: 0 <= k < |table| ==> |table[k].0| > 0
    decreases |table|
  {
    if table == [] then s
    else
      var last := table[|table| - 1];
      ReplaceAll(ReplaceEach(s, table[..|table| - 1]), last.0, last.1)
  }

  /** The first entry is applied first, and what it inserted is then subject to
      every later entry, but never to an earlier one. */
  lemma {:induction false} ReplaceEachFront(s: string, e: (string, string), rest: seq<(string, string)>)
    requires |e.0| > 0
    requires forall k :: 0 <= k < |rest| ==> |rest[k].0| > 0
    ensures forall k :: 0 <= k < |[e] + rest| ==> |([e] + rest)[k].0| > 0
    ensures ReplaceEach(s, [e] + rest) == ReplaceEach(ReplaceAll(s, e.0, e.1), rest)
    decreases |rest|
  {
    var t := [e] + rest;
    assert forall k :: 0 <= k < |t| ==> |t[k].0| > 0 by {
      forall k | 0 <= k < |t| ensures |t[k].0| > 0 {
        if k > 0 {
          assert t[k] == rest[k - 1];
        }
      }
    }
    if rest == [] {
      assert t[..0] == [];
    } else {
      var init := rest[..|rest| - 1];
      ReplaceEachFront(s, e, init);
      assert t[..|t| - 1] == [e] + init;
    }
  }

  /** Text that contains none of the table's patterns comes through unchanged. */
  lemma {:induction false} ReplaceEachUntouched(s: string, table: seq<(string, string)>)
    requires forall k :: 0 <= k < |table| ==> |table[k].0| > 0
    requires forall k :: 0 <= k < |table| ==> !Contains(s, table[k].0)
    ensures ReplaceEach(s, table) == s
    decreases |table|
  {
    if table != [] {
      ReplaceEachUntouched(s, table[..|table| - 1]);
      ReplaceAllAbsent(s, table[|table| - 1].0, table[|table| - 1].1);
    }
  }

  // ---------------------------------------------------------------------------
  // trim
  // ---------------------------------------------------------------------------

  /** The white space `String.prototype.trim` removes (ASCII white space,
      no-break space, line and paragraph separators, byte-order mark). */
  predicate IsWhite(c: char) {
    c == ' ' || c == '\t' || c == '\n' || c == '\r' || c == '\U{000B}' || c == '\U{000C}' ||
    c == '\U{00A0}' || c == '\U{2028}' || c == '\U{2029}' || c == '\U{FEFF}'
  }

  function TrimStart(s: string): (r: string)
    decreases |s|
  {
    if s != [] && IsWhite(s[0]) then TrimStart(s[1..]) else s
  }

  function TrimEnd(s: string): (r: string)
    decreases |s|
  {
    if s != [] && IsWhite(s[|s| - 1]) then TrimEnd(s[..|s| - 1]) else s
  }

  /** `s.trim()` */
  function Trim(s: string): string {
    TrimEnd(TrimStart(s))
  }

  ghost predicate Trimmed(s: string) {
    s == [] || (!IsWhite(s[0]) && !IsWhite(s[|s| - 1]))
  }

  ghost predicate AllWhite(s: string) {
    forall k :: 0 <= k < |s| ==> IsWhite(s[k])
  }

  lemma {:induction false} TrimStartSpec(s: string)
    ensures exists a :: 0 <= a <= |s| && TrimStart(s) == s[a..] && AllWhite(s[..a])
    ensures TrimStart(s) == [] || !IsWhite(TrimStart(s)[0])
    decreases |s|
  {
    if s != [] && IsWhite(s[0]) {
      TrimStartSpec(s[1..]);
      var a :| 0 <= a <= |s[1..]| && TrimStart(s[1..]) == s[1..][a..] && AllWhite(s[1..][..a]);
      assert s[1..][a..] == s[a + 1..];
      var w := s[..a + 1];
      forall k | 0 <= k < |w| ensures IsWhite(w[k]) {
        if k > 0 {
          assert w[k] == s[1..][..a][k - 1];
        }
      }
    } else {
      assert s == s[0..];
      assert AllWhite(s[..0]);
    }
  }

  lemma {:induction false} TrimEndSpec(s: string)
    ensures exists b :: 0 <= b <= |s| && TrimEnd(s) == s[..b] && AllWhite(s[b..])
    ensures TrimEnd(s) == [] || !IsWhite(TrimEnd(s)[|TrimEnd(s)| - 1])
    decreases |s|
  {
    if s != [] && IsWhite(s[|s| - 1]) {
      var init := s[..|s| - 1];
      TrimEndSpec(init);
      var b :| 0 <= b <= |init| && TrimEnd(init) == init[..b] && AllWhite(init[b..]);
      assert init[..b] == s[..b];
      forall k | 0 <= k < |s| - b ensures IsWhite(s[b..][k]) {
        if k < |init| - b {
          assert s[b..][k] == init[b..][k];
        }
      }
    } else {
      assert s == s[..|s|];
      assert AllWhite(s[|s|..]);
    }
  }

  /** `trim` removes white space at both ends and nothing else. */
  lemma {:induction false} TrimSpec(s: string)
    ensures Trimmed(Trim(s))
    ensures exists a, b :: 0 <= a <= b <= |s| && Trim(s) == s[a..b] &&
                           AllWhite(s[..a]) && AllWhite(s[b..])
  {
    TrimStartSpec(s);
    var a :| 0 <= a <= |s| && TrimStart(s) == s[a..] && AllWhite(s[..a]);
    var t := TrimStart(s);
    TrimEndSpec(t);
    var b :| 0 <= b <= |t| && TrimEnd(t) == t[..b] && AllWhite(t[b..]);
    assert t[..b] == s[a..a + b];
    assert s[a + b..] == t[b..];
    if TrimEnd(t) != [] {
      assert TrimEnd(t)[0] == t[0];
    }
  }
}
