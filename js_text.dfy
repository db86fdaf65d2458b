/**
 * The JavaScript string and number builtins that the car listing relies on:
 * truthiness, `trim`, `toLowerCase`, `split(/\s+/)`, `includes`, the
 * decimal `toString` of an integer, `parseInt(s, 10)`, the relational `<`
 * on strings, and `split('T')[0]`.
 */
module JsText {

  import opened Wrappers

  /** A string is truthy in JavaScript exactly when it is not empty. */
  predicate Truthy(s: string) { s != "" }

  /** A nullable string is truthy when present and not empty. */
  predicate TruthyText(o: Option<string>) { o.Some? && o.value != "" }

  /** A nullable number is truthy when present and not zero. */
  predicate TruthyNumber(o: Option<int>) { o.Some? && o.value != 0 }

  /** `o || ''` for a nullable string (also `o ?? ''`: both map only null to ""). */
  function TextOrEmpty(o: Option<string>): (s: string)
    ensures Truthy(s) <==> TruthyText(o)
  {
    o.GetOr("")
  }

  // ---------------------------------------------------------------- whitespace

  /** The characters `String.prototype.trim` removes and the regular expression
      class `\s` matches: ECMAScript WhiteSpace and LineTerminator. */
  predicate IsWhitespace(c: char)
  {
    c == '\t' || c == '\n' || c == '\U{000B}' || c == '\U{000C}' || c == '\r' || c == ' '
    || c == '\U{00A0}' || c == '\U{1680}' || ('\U{2000}' <= c <= '\U{200A}')
    || c == '\U{2028}' || c == '\U{2029}' || c == '\U{202F}' || c == '\U{205F}'
    || c == '\U{3000}' || c == '\U{FEFF}'
  }

  predicate AllWhitespace(s: string)
  {
    forall i :: 0 <= i < |s| ==> IsWhitespace(s[i])
  }

  /** `s.trimStart()`: the suffix left after the leading run of whitespace. */
  function TrimStart(s: string): (r: string)
    ensures |r| <= |s| && r == s[|s| - |r|..]
    ensures AllWhitespace(s[..|s| - |r|])
    ensures r == [] || !IsWhitespace(r[0])
  {
    if s != [] && IsWhitespace(s[0]) then TrimStart(s[1..]) else s
  }

  /** `s.trimEnd()`: the prefix left after the trailing run of whitespace. */
  function TrimEnd(s: string): (r: string)
    ensures |r| <= |s| && r == s[..|r|]
    ensures AllWhitespace(s[|r|..])
    ensures r == [] || !IsWhitespace(r[|r| - 1])
  {
    if s != [] && IsWhitespace(s[|s| - 1]) then TrimEnd(s[..|s| - 1]) else s
  }

  /** `s.trim()` */
  function Trim(s: string): (r: string)
    ensures |r| <= |s|
    ensures r == [] || (!IsWhitespace(r[0]) && !IsWhitespace(r[|r| - 1]))
  {
    TrimEnd(TrimStart(s))
  }

  lemma {:induction false} TrimStartPadded(lead: string, rest: string)
    requires AllWhitespace(lead)
    requires rest == [] || !IsWhitespace(rest[0])
    ensures TrimStart(lead + rest) == rest
  {
    if lead != [] {
      assert (lead + rest)[1..] == lead[1..] + rest;
      assert AllWhitespace(lead[1..]) by {
        forall i | 0 <= i < |lead[1..]| ensures IsWhitespace(lead[1..][i]) { assert lead[1..][i] == lead[i + 1]; }
      }
      TrimStartPadded(lead[1..], rest);
    }
  }

  lemma {:induction false} TrimEndPadded(rest: string, trail: string)
    requires AllWhitespace(trail)
    requires rest == [] || !IsWhitespace(rest[|rest| - 1])
    ensures TrimEnd(rest + trail) == rest
  {
    if trail != [] {
      var n := |trail| - 1;
      assert (rest + trail)[..|rest + trail| - 1] == rest + trail[..n];
      assert AllWhitespace(trail[..n]) by {
        forall i | 0 <= i < n ensures IsWhitespace(trail[..n][i]) { assert trail[..n][i] == trail[i]; }
      }
      TrimEndPadded(rest, trail[..n]);
    }
  }

  /** Trimming removes exactly the surrounding whitespace: whatever whitespace
      is put around a text without outer whitespace, `trim` gives that text
      back. */
  lemma TrimPadded(lead: string, core: string, trail: string)
    requires AllWhitespace(lead) && AllWhitespace(trail)
    requires core == [] || (!IsWhitespace(core[0]) && !IsWhitespace(core[|core| - 1]))
    ensures Trim(lead + core + trail) == core
  {
    assert lead + core + trail == lead + (core + trail);
    if core == [] {
      assert AllWhitespace(lead + trail) by {
        forall i | 0 <= i < |lead + trail| ensures IsWhitespace((lead + trail)[i]) {
          if i < |lead| { assert (lead + trail)[i] == lead[i]; } else { assert (lead + trail)[i] == trail[i - |lead|]; }
        }
      }
      assert core + trail == trail;
      TrimStartPadded(lead + trail, []);
      assert lead + trail + [] == lead + (core + trail);
    } else {
      TrimStartPadded(lead, core + trail);
      TrimEndPadded(core, trail);
    }
  }

  /** A string made only of whitespace trims to the empty string. */
  lemma {:induction false} TrimAllWhitespace(s: string)
    requires AllWhitespace(s)
    ensures Trim(s) == ""
  {
    if s != [] {
      assert IsWhitespace(s[0]);
      assert AllWhitespace(s[1..]) by {
        forall i | 0 <= i < |s[1..]| ensures IsWhitespace(s[1..][i]) { assert s[1..][i] == s[i + 1]; }
      }
      TrimAllWhitespace(s[1..]);
    }
  }

  // ---------------------------------------------------------------- case

  /** `toLowerCase` on one character. Only the ASCII letters are mapped. */
  function LowerChar(c: char): (d: char)
    ensures IsWhitespace(d) <==> IsWhitespace(c)
    ensures ('A' <= c <= 'Z') ==> d as int == c as int + 32
    ensures !('A' <= c <= 'Z') ==> d == c
    ensures !('A' <= d <= 'Z')
  {
    if 'A' <= c <= 'Z' then (c as int + 32) as char else c
  }

  /** `s.toLowerCase()`, character by character. */
  function ToLower(s: string): (r: string)
    ensures |r| == |s|
    ensures forall i :: 0 <= i < |s| ==> r[i] == LowerChar(s[i])
  {
    if s == [] then [] else [LowerChar(s[0])] + ToLower(s[1..])
  }

  lemma ToLowerAppend(a: string, b: string)
    ensures ToLower(a + b) == ToLower(a) + ToLower(b)
  {
    var l, r := ToLower(a + b), ToLower(a) + ToLower(b);
    forall i | 0 <= i < |l| ensures l[i] == r[i] {
      if i < |a| {
        assert (a + b)[i] == a[i] && r[i] == ToLower(a)[i];
      } else {
        assert (a + b)[i] == b[i - |a|] && r[i] == ToLower(b)[i - |a|];
      }
    }
  }

  /** Lowering case twice is the same as lowering it once. */
  lemma ToLowerIdempotent(s: string)
    ensures ToLower(ToLower(s)) == ToLower(s)
  {
    assert |ToLower(ToLower(s))| == |ToLower(s)|;
    forall i | 0 <= i < |s| ensures ToLower(ToLower(s))[i] == ToLower(s)[i] {
      assert LowerChar(LowerChar(s[i])) == LowerChar(s[i]);
    }
  }

  lemma {:induction false} TrimStartToLower(s: string)
    ensures TrimStart(ToLower(s)) == ToLower(TrimStart(s))
  {
    if s != [] {
      assert ToLower(s)[0] == LowerChar(s[0]);
      assert ToLower(s)[1..] == ToLower(s[1..]);
      TrimStartToLower(s[1..]);
    }
  }

  lemma ToLowerPrefix(s: string, n: nat)
    requires n <= |s|
    ensures ToLower(s)[..n] == ToLower(s[..n])
  {
    var l, m := ToLower(s)[..n], ToLower(s[..n]);
    forall i | 0 <= i < n ensures l[i] == m[i] {
      assert l[i] == LowerChar(s[i]) && m[i] == LowerChar(s[..n][i]);
    }
  }

  lemma {:induction false} TrimEndToLower(s: string)
    ensures TrimEnd(ToLower(s)) == ToLower(TrimEnd(s))
  {
    if s != [] {
      var n := |s| - 1;
      assert ToLower(s)[n] == LowerChar(s[n]);
      ToLowerPrefix(s, n);
      TrimEndToLower(s[..n]);
    }
  }

  /** Trimming commutes with lowering case, since lowering never creates or
      removes whitespace. */
  lemma TrimToLower(s: string)
    ensures Trim(ToLower(s)) == ToLower(Trim(s))
  {
    TrimStartToLower(s);
    TrimEndToLower(TrimStart(s));
  }

  // ---------------------------------------------------------------- split

  /** The number of leading characters that are not whitespace. */
  function WordLength(s: string): (n: nat)
    ensures n <= |s|
    ensures forall i :: 0 <= i < n ==> !IsWhitespace(s[i])
    ensures n == |s| || IsWhitespace(s[n])
  {
    if s == [] || IsWhitespace(s[0]) then 0 else 1 + WordLength(s[1..])
  }

  /** The number of leading whitespace characters. */
  function SpaceLength(s: string): (n: nat)
    ensures n <= |s|
    ensures forall i :: 0 <= i < n ==> IsWhitespace(s[i])
    ensures n == |s| || !IsWhitespace(s[n])
  {
    if s == [] || !IsWhitespace(s[0]) then 0 else 1 + SpaceLength(s[1..])
  }

  predicate NoWhitespace(s: string)
  {
    forall i :: 0 <= i < |s| ==> !IsWhitespace(s[i])
  }

  /** `s.split(/\s+/)`: the pieces between maximal runs of whitespace. The
      empty string gives `[""]`; leading or trailing whitespace gives an empty
      first or last piece. */
  function SplitOnWhitespace(s: string): (parts: seq<string>)
    ensures |parts| >= 1
    ensures forall k :: 0 <= k < |parts| ==> NoWhitespace(parts[k])
    decreases |s|
  {
    var n := WordLength(s);
    if n == |s| then [s]
    else [s[..n]] + SplitOnWhitespace(s[n + SpaceLength(s[n..])..])
  }

  /** Cutting the first word and the whitespace after it off a string without
      outer whitespace leaves a shorter non-empty string without outer
      whitespace. */
  lemma TrimmedRest(s: string)
    requires s != [] && !IsWhitespace(s[0]) && !IsWhitespace(s[|s| - 1])
    requires WordLength(s) < |s|
    ensures var n := WordLength(s);
      var rest := s[n + SpaceLength(s[n..])..];
      n > 0 && rest != [] && !IsWhitespace(rest[0]) && rest[|rest| - 1] == s[|s| - 1]
  {
    var n := WordLength(s);
    var t := s[n..];
    var m := SpaceLength(t);
    assert IsWhitespace(s[n]);
    assert !IsWhitespace(t[m]);
    assert t[m] == s[n + m];
  }

  /** The pieces of a string without outer whitespace are all non-empty, except
      the single piece of the empty string. */
  lemma {:induction false} SplitTrimmedPieces(s: string)
    requires s == [] || (!IsWhitespace(s[0]) && !IsWhitespace(s[|s| - 1]))
    ensures var parts := SplitOnWhitespace(s);
      (s == [] ==> parts == [""]) && (s != [] ==> forall k :: 0 <= k < |parts| ==> parts[k] != "")
    decreases |s|
  {
    var n := WordLength(s);
    if n < |s| {
      var rest := s[n + SpaceLength(s[n..])..];
      TrimmedRest(s);
      SplitTrimmedPieces(rest);
      var parts := SplitOnWhitespace(s);
      assert parts == [s[..n]] + SplitOnWhitespace(rest);
      assert s[..n] != "";
      forall k | 0 <= k < |parts| ensures parts[k] != "" {
        if k > 0 { assert parts[k] == SplitOnWhitespace(rest)[k - 1]; }
      }
    }
  }

  /** `ws.join(' ')` */
  function JoinWords(ws: seq<string>): string
  {
    if ws == [] then "" else if |ws| == 1 then ws[0] else ws[0] + " " + JoinWords(ws[1..])
  }

  /** Words that `split(/\s+/)` can give back: non-empty, without whitespace. */
  predicate IsWord(w: string)
  {
    w != "" && NoWhitespace(w)
  }

  lemma {:induction false} WordLengthOfWord(w: string, rest: string)
    requires NoWhitespace(w)
    requires rest == [] || IsWhitespace(rest[0])
    ensures WordLength(w + rest) == |w|
  {
    if w != [] {
      assert (w + rest)[0] == w[0];
      assert (w + rest)[1..] == w[1..] + rest;
      WordLengthOfWord(w[1..], rest);
    }
  }

  /** A word, a single space and a text that starts with no whitespace split
      into the word and the pieces of that text. */
  lemma SplitWordThenRest(w: string, rest: string)
    requires IsWord(w) && rest != [] && !IsWhitespace(rest[0])
    ensures SplitOnWhitespace(w + " " + rest) == [w] + SplitOnWhitespace(rest)
  {
    var s := w + " " + rest;
    var n := |w|;
    assert s == w + (" " + rest);
    WordLengthOfWord(w, " " + rest);
    assert s[n..] == " " + rest;
    assert SpaceLength(" " + rest) == 1 by {
      assert (" " + rest)[1..] == rest;
    }
    assert s[n + 1..] == rest;
    assert s[..n] == w;
  }

  /** Splitting words joined by single spaces gives the words back. */
  lemma {:induction false} SplitJoinWords(ws: seq<string>)
    requires |ws| >= 1 && forall k :: 0 <= k < |ws| ==> IsWord(ws[k])
    ensures SplitOnWhitespace(JoinWords(ws)) == ws
  {
    if |ws| == 1 {
      WordLengthOfWord(ws[0], []);
      assert ws[0] + [] == ws[0];
    } else {
      var rest := JoinWords(ws[1..]);
      JoinStartsWithFirstWord(ws[1..]);
      assert !IsWhitespace(rest[0]) by {
        assert rest[0] == ws[1][0];
      }
      SplitWordThenRest(ws[0], rest);
      SplitJoinWords(ws[1..]);
      assert ws == [ws[0]] + ws[1..];
    }
  }

  lemma {:induction false} JoinStartsWithFirstWord(ws: seq<string>)
    requires |ws| >= 1 && ws[0] != ""
    ensures JoinWords(ws) != [] && JoinWords(ws)[0] == ws[0][0]
  {
  }

  lemma {:induction false} JoinEndsWithLastWord(ws: seq<string>)
    requires |ws| >= 1 && ws[|ws| - 1] != ""
    ensures JoinWords(ws) != [] && JoinWords(ws)[|JoinWords(ws)| - 1] == ws[|ws| - 1][|ws[|ws| - 1]| - 1]
  {
    if |ws| > 1 {
      JoinEndsWithLastWord(ws[1..]);
    }
  }

  /** Words joined by single spaces have no whitespace at either end, so
      `trim` leaves them alone. */
  lemma TrimJoinWords(ws: seq<string>)
    requires |ws| >= 1 && forall k :: 0 <= k < |ws| ==> IsWord(ws[k])
    ensures Trim(JoinWords(ws)) == JoinWords(ws)
  {
    JoinStartsWithFirstWord(ws);
    JoinEndsWithLastWord(ws);
    var w0, wl := ws[0], ws[|ws| - 1];
    assert !IsWhitespace(w0[0]) && !IsWhitespace(wl[|wl| - 1]);
    TrimPadded("", JoinWords(ws), "");
    assert "" + JoinWords(ws) + "" == JoinWords(ws);
  }

  /** The words in lower case. */
  function LowerWords(ws: seq<string>): (r: seq<string>)
    ensures |r| == |ws| && forall k :: 0 <= k < |ws| ==> r[k] == ToLower(ws[k])
  {
    if ws == [] then [] else [ToLower(ws[0])] + LowerWords(ws[1..])
  }

  lemma {:induction false} ToLowerJoinWords(ws: seq<string>)
    ensures ToLower(JoinWords(ws)) == JoinWords(LowerWords(ws))
  {
    if |ws| > 1 {
      ToLowerJoinWords(ws[1..]);
      ToLowerAppend(ws[0], " " + JoinWords(ws[1..]));
      ToLowerAppend(" ", JoinWords(ws[1..]));
      assert ws[0] + " " + JoinWords(ws[1..]) == ws[0] + (" " + JoinWords(ws[1..]));
      assert ToLower(" ") == " ";
      assert LowerWords(ws)[1..] == LowerWords(ws[1..]);
    }
  }

  lemma LowerWordsAreWords(ws: seq<string>)
    requires forall k :: 0 <= k < |ws| ==> IsWord(ws[k])
    ensures forall k :: 0 <= k < |ws| ==> IsWord(LowerWords(ws)[k])
  {
    forall k | 0 <= k < |ws| ensures IsWord(LowerWords(ws)[k]) {
      var w := ws[k];
      assert forall i :: 0 <= i < |w| ==> ToLower(w)[i] == LowerChar(w[i]);
    }
  }

  // ---------------------------------------------------------------- includes

  /** `s.startsWith(p)` */
  predicate StartsWith(s: string, p: string)
  {
    p == [] || (s != [] && p[0] == s[0] && StartsWith(s[1..], p[1..]))
  }

  lemma {:induction false} StartsWithIff(s: string, p: string)
    ensures StartsWith(s, p) <==> |p| <= |s| && s[..|p|] == p
  {
    if p != [] && s != [] {
      StartsWithIff(s[1..], p[1..]);
      if |p| <= |s| && s[..|p|] == p {
        assert s[1..][..|p| - 1] == s[..|p|][1..];
      }
      if StartsWith(s, p) {
        assert s[..|p|] == [s[0]] + s[1..][..|p| - 1];
        assert p == [p[0]] + p[1..];
      }
    }
  }

  /** `p` occurs in `s` starting at position `i`. */
  predicate OccursAt(s: string, p: string, i: int)
  {
    0 <= i && i + |p| <= |s| && s[i..i + |p|] == p
  }

  /** `s.includes(p)`: `p` occurs somewhere in `s`. */
  predicate Includes(s: string, p: string)
  {
    StartsWith(s, p) || (s != [] && Includes(s[1..], p))
  }

  /** `includes` means occurring at some position. */
  lemma {:induction false} IncludesIff(s: string, p: string)
    ensures Includes(s, p) <==> exists i :: OccursAt(s, p, i)
  {
    StartsWithIff(s, p);
    if s != [] {
      IncludesIff(s[1..], p);
      if Includes(s[1..], p) {
        var i :| OccursAt(s[1..], p, i);
        assert s[1..][i..i + |p|] == s[i + 1..i + 1 + |p|];
        assert OccursAt(s, p, i + 1);
      }
      if StartsWith(s, p) {
        assert OccursAt(s, p, 0);
      }
      if exists i :: OccursAt(s, p, i) {
        var i :| OccursAt(s, p, i);
        if i > 0 {
          assert s[1..][i - 1..i - 1 + |p|] == s[i..i + |p|];
          assert OccursAt(s[1..], p, i - 1);
        } else {
          assert s[..|p|] == p;
        }
      }
    } else {
      if Includes(s, p) {
        assert OccursAt(s, p, 0);
      }
      if exists i :: OccursAt(s, p, i) {
        var i :| OccursAt(s, p, i);
        assert p == [];
      }
    }
  }

  /** Every string includes the empty string. */
  lemma IncludesEmpty(s: string)
    ensures Includes(s, "")
  {
  }

  /** A text never includes a longer one. */
  lemma {:induction false} IncludesNotLonger(s: string, p: string)
    requires |s| < |p|
    ensures !Includes(s, p)
  {
    IncludesIff(s, p);
  }

  /** Every text includes itself. */
  lemma IncludesSelf(s: string)
    ensures Includes(s, s)
  {
    IncludesIff(s, s);
    assert OccursAt(s, s, 0);
  }

  /** An occurrence inside a part is an occurrence inside the whole. */
  lemma IncludesInConcat(a: string, b: string, p: string)
    ensures Includes(a, p) ==> Includes(a + b, p)
    ensures Includes(b, p) ==> Includes(a + b, p)
  {
    IncludesIff(a, p);
    IncludesIff(b, p);
    IncludesIff(a + b, p);
    if Includes(a, p) {
      var i :| OccursAt(a, p, i);
      assert (a + b)[i..i + |p|] == a[i..i + |p|];
      assert OccursAt(a + b, p, i);
    }
    if Includes(b, p) {
      var i :| OccursAt(b, p, i);
      assert (a + b)[|a| + i..|a| + i + |p|] == b[i..i + |p|];
      assert OccursAt(a + b, p, |a| + i);
    }
  }

  /** An occurrence of a text without whitespace cannot cover the space
      between `a` and `b`, so it lies within one of them. */
  lemma OccursAroundSpace(a: string, b: string, p: string, i: int)
    requires NoWhitespace(p) && OccursAt(a + " " + b, p, i)
    ensures OccursAt(a, p, i) || OccursAt(b, p, i - |a| - 1)
  {
    var s := a + " " + b;
    assert forall k :: i <= k < i + |p| ==> s[k] == s[i..i + |p|][k - i] == p[k - i];
    assert IsWhitespace(s[|a|]);
    if i + |p| <= |a| {
      assert s[i..i + |p|] == a[i..i + |p|];
    } else {
      assert s[i..i + |p|] == b[i - |a| - 1..i - |a| - 1 + |p|];
    }
  }

  /** A text without whitespace occurs in two texts joined by a space only
      if it occurs in one of them. */
  lemma IncludesAroundSpace(a: string, b: string, p: string)
    requires p != "" && NoWhitespace(p)
    ensures Includes(a + " " + b, p) <==> Includes(a, p) || Includes(b, p)
  {
    var s := a + " " + b;
    IncludesIff(a, p);
    IncludesIff(b, p);
    IncludesIff(s, p);
    if Includes(s, p) {
      var i :| OccursAt(s, p, i);
      OccursAroundSpace(a, b, p, i);
    }
    IncludesInConcat(a, " " + b, p);
    IncludesInConcat(" ", b, p);
    assert s == a + (" " + b);
  }

  /** A text without whitespace occurs in words joined by spaces exactly when
      it occurs in one of the words. */
  lemma {:induction false} IncludesJoinWords(ws: seq<string>, p: string)
    requires p != "" && NoWhitespace(p)
    ensures Includes(JoinWords(ws), p) <==> exists k :: 0 <= k < |ws| && Includes(ws[k], p)
  {
    if ws == [] {
      IncludesIff("", p);
    } else if |ws| > 1 {
      IncludesJoinWords(ws[1..], p);
      IncludesAroundSpace(ws[0], JoinWords(ws[1..]), p);
      if exists k :: 1 <= k < |ws| && Includes(ws[k], p) {
        var k :| 1 <= k < |ws| && Includes(ws[k], p);
        assert ws[1..][k - 1] == ws[k];
      }
      if exists k :: 0 <= k < |ws[1..]| && Includes(ws[1..][k], p) {
        var k :| 0 <= k < |ws[1..]| && Includes(ws[1..][k], p);
        assert ws[k + 1] == ws[1..][k];
      }
    }
  }

  // ---------------------------------------------------------------- numbers

  function DigitChar(d: int): (c: char)
    requires 0 <= d < 10
    ensures '0' <= c <= '9'
  {
    ('0' as int + d) as char
  }

  predicate IsDigit(c: char) { '0' <= c <= '9' }

  function DigitValue(c: char): (d: int)
    requires IsDigit(c)
    ensures 0 <= d < 10 && DigitChar(d) == c
  {
    c as int - '0' as int
  }

  /** The decimal digits of a natural number, without leading zeros. */
  function NatToString(n: nat): (s: string)
    ensures |s| >= 1
    ensures forall i :: 0 <= i < |s| ==> IsDigit(s[i])
    ensures (s[0] == '0') <==> n == 0
  {
    if n < 10 then [DigitChar(n)] else NatToString(n / 10) + [DigitChar(n % 10)]
  }

  /** `String(n)` / `n.toString()` for an integer. */
  function IntToString(n: int): (s: string)
    ensures s != ""
  {
    if n < 0 then "-" + NatToString(-n) else NatToString(n)
  }

  /** The value of a non-empty string of decimal digits. */
  function ParseDigits(s: string): (n: nat)
    requires s != [] && forall i :: 0 <= i < |s| ==> IsDigit(s[i])
  {
    if |s| == 1 then DigitValue(s[0])
    else ParseDigits(s[..|s| - 1]) * 10 + DigitValue(s[|s| - 1])
  }

  predicate AllDigits(s: string) { s != [] && forall i :: 0 <= i < |s| ==> IsDigit(s[i]) }

  /** `parseInt(s, 10)` and `Number(s)` for a string that is an optional minus
      sign followed by decimal digits; `None` stands for anything else. */
  function ParseInt(s: string): (r: Option<int>)
    ensures r.Some? <==> AllDigits(s) || (|s| >= 2 && s[0] == '-' && AllDigits(s[1..]))
  {
    if AllDigits(s) then Option<int>.Some(ParseDigits(s))
    else if |s| >= 2 && s[0] == '-' && AllDigits(s[1..]) then Option<int>.Some(-(ParseDigits(s[1..]) as int))
    else None
  }

  lemma {:induction false} ParseNatToString(n: nat)
    ensures AllDigits(NatToString(n)) && ParseDigits(NatToString(n)) == n
  {
    if n >= 10 {
      var s := NatToString(n);
      var t := NatToString(n / 10);
      assert s[..|s| - 1] == t;
      ParseNatToString(n / 10);
    }
  }

  /** The text of a four-digit year, digit by digit. */
  lemma FourDigitText(y: int)
    requires 1000 <= y <= 9999
    ensures IntToString(y) == [DigitChar(y / 1000), DigitChar(y / 100 % 10), DigitChar(y / 10 % 10), DigitChar(y % 10)]
  {
    assert y / 100 / 10 == y / 1000 && y / 10 / 10 == y / 100;
    assert NatToString(y / 1000) == [DigitChar(y / 1000)];
    assert NatToString(y / 100) == [DigitChar(y / 1000)] + [DigitChar(y / 100 % 10)];
    assert NatToString(y / 10) == [DigitChar(y / 1000), DigitChar(y / 100 % 10)] + [DigitChar(y / 10 % 10)];
    assert NatToString(y) == [DigitChar(y / 1000), DigitChar(y / 100 % 10), DigitChar(y / 10 % 10)] + [DigitChar(y % 10)];
  }

  /** A minus sign before digits parses to the negated value. */
  lemma ParseIntNegative(t: string)
    requires AllDigits(t)
    ensures ParseInt("-" + t) == Some(-(ParseDigits(t) as int))
  {
    var s := "-" + t;
    assert s[1..] == t;
    assert !IsDigit(s[0]);
  }

  /** Parsing the decimal text of an integer gives the integer back. */
  lemma ParseIntToString(n: int)
    ensures ParseInt(IntToString(n)) == Some(n)
  {
    if n < 0 {
      var m: nat := -n;
      var t := NatToString(m);
      ParseNatToString(m);
      ParseIntNegative(t);
      assert IntToString(n) == "-" + t;
    } else {
      ParseNatToString(n);
      assert IntToString(n) == NatToString(n);
    }
  }

  /** Distinct integers have distinct decimal texts. */
  lemma IntToStringInjective(a: int, b: int)
    ensures IntToString(a) == IntToString(b) ==> a == b
  {
    ParseIntToString(a);
    ParseIntToString(b);
  }

  // ---------------------------------------------------------------- ordering

  /** `a < b` on strings: lexicographic order of the characters. */
  predicate StrLess(a: string, b: string)
  {
    if a == [] then b != []
    else if b == [] then false
    else if a[0] != b[0] then a[0] < b[0]
    else StrLess(a[1..], b[1..])
  }

  lemma {:induction false} StrLessIrreflexive(a: string)
    ensures !StrLess(a, a)
  {
    if a != [] { StrLessIrreflexive(a[1..]); }
  }

  lemma {:induction false} StrLessTrichotomy(a: string, b: string)
    ensures a == b || StrLess(a, b) || StrLess(b, a)
    ensures !(StrLess(a, b) && StrLess(b, a))
  {
    if a != [] && b != [] && a[0] == b[0] {
      StrLessTrichotomy(a[1..], b[1..]);
      if a[1..] == b[1..] { assert a == [a[0]] + a[1..] && b == [b[0]] + b[1..]; }
    }
  }

  lemma {:induction false} StrLessTransitive(a: string, b: string, c: string)
    requires StrLess(a, b) && StrLess(b, c)
    ensures StrLess(a, c)
  {
    if a != [] && a[0] == b[0] && b[0] == c[0] {
      StrLessTransitive(a[1..], b[1..], c[1..]);
    }
  }

  /** On strings of equal length, `<` on `a + [x]` and `b + [y]` is decided by
      `a` and `b` first and by the last characters on a tie. */
  lemma {:induction false} StrLessAppendChar(a: string, b: string, x: char, y: char)
    requires |a| == |b|
    ensures StrLess(a + [x], b + [y]) <==> StrLess(a, b) || (a == b && x < y)
  {
    if a != [] {
      assert (a + [x])[1..] == a[1..] + [x];
      assert (b + [y])[1..] == b[1..] + [y];
      StrLessAppendChar(a[1..], b[1..], x, y);
      if a[0] == b[0] && a[1..] == b[1..] { assert a == b; }
      if a == b { assert a[1..] == b[1..]; }
    }
  }

  /** The number of decimal digits of a natural number. */
  function DigitCount(n: nat): (k: nat)
    ensures k == |NatToString(n)|
  {
    if n < 10 then 1 else DigitCount(n / 10) + 1
  }

  lemma DigitCountOne(n: nat)
    ensures DigitCount(n) == 1 <==> n < 10
  {
    if n >= 10 { assert DigitCount(n / 10) >= 1; }
  }

  /** For natural numbers with the same number of digits, the string order of
      their decimal texts is their numeric order. */
  lemma {:induction false} StrLessMatchesNumericOrder(a: nat, b: nat)
    requires DigitCount(a) == DigitCount(b)
    ensures StrLess(NatToString(a), NatToString(b)) <==> a < b
  {
    DigitCountOne(a);
    DigitCountOne(b);
    if a < 10 {
      assert NatToString(a)[1..] == [] && NatToString(b)[1..] == [];
    } else {
      StrLessMatchesNumericOrder(a / 10, b / 10);
      StrLessAppendChar(NatToString(a / 10), NatToString(b / 10), DigitChar(a % 10), DigitChar(b % 10));
      ParseNatToString(a / 10);
      ParseNatToString(b / 10);
    }
  }

  // ---------------------------------------------------------------- dates

  /** `s.split('T')[0]`: the text before the first `T`, or all of it. */
  function BeforeFirstT(s: string): (r: string)
    ensures |r| <= |s| && r == s[..|r|]
    ensures 'T' !in r
    ensures |r| < |s| ==> s[|r|] == 'T'
  {
    if s == [] || s[0] == 'T' then [] else [s[0]] + BeforeFirstT(s[1..])
  }
}
