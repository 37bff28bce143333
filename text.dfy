/**
 * The few `java.lang.String` operations the core relies on: ASCII case mapping
 * (`toLowerCase`, `equalsIgnoreCase`), decimal formatting (`String.format("%d")`)
 * and `String.replace(CharSequence, CharSequence)`.
 */
module Text {

  predicate IsUpper(c: char) { 'A' <= c <= 'Z' }
  predicate IsLower(c: char) { 'a' <= c <= 'z' }
  predicate IsDigit(c: char) { '0' <= c <= '9' }

  function LowerChar(c: char): (r: char)
    ensures !IsUpper(r)
    ensures IsUpper(c) ==> IsLower(r) && r as int == c as int + 32
    ensures !IsUpper(c) ==> r == c
  {
    if IsUpper(c) then (c as int + 32) as char else c
  }

  function UpperChar(c: char): (r: char)
    ensures !IsLower(r)
    ensures !IsLower(c) ==> r == c
  {
    if IsLower(c) then (c as int - 32) as char else c
  }

  /** `String.toLowerCase()`, restricted to ASCII letters. */
  function ToLower(s: string): (r: string)
    ensures |r| == |s|
    ensures forall i :: 0 <= i < |s| ==> r[i] == LowerChar(s[i])
  {
    if s == [] then [] else [LowerChar(s[0])] + ToLower(s[1..])
  }

  lemma {:induction false} ToLowerIdempotent(s: string)
    ensures ToLower(ToLower(s)) == ToLower(s)
  {
    var t := ToLower(s);
    assert forall i :: 0 <= i < |t| ==> LowerChar(t[i]) == t[i];
  }

  /** `Character`-wise comparison of `String.equalsIgnoreCase`, on ASCII letters. */
  predicate CharEqualsIgnoreCase(a: char, b: char)
  {
    a == b || UpperChar(a) == UpperChar(b)
  }

  /** `String.equalsIgnoreCase`: same length and pairwise equal up to case. */
  predicate EqualsIgnoreCase(a: string, b: string)
  {
    |a| == |b| && forall i :: 0 <= i < |a| ==> CharEqualsIgnoreCase(a[i], b[i])
  }

  lemma CharCaseAgree(a: char, b: char)
    ensures CharEqualsIgnoreCase(a, b) <==> LowerChar(a) == LowerChar(b)
  {
  }

  /** Comparing ignoring case is the same as comparing the lower-cased strings. */
  lemma {:induction false} EqualsIgnoreCaseIsLowerEquality(a: string, b: string)
    ensures EqualsIgnoreCase(a, b) <==> ToLower(a) == ToLower(b)
  {
    if EqualsIgnoreCase(a, b) {
      forall i | 0 <= i < |a| ensures ToLower(a)[i] == ToLower(b)[i] {
        CharCaseAgree(a[i], b[i]);
      }
    }
    if ToLower(a) == ToLower(b) {
      forall i | 0 <= i < |a| ensures CharEqualsIgnoreCase(a[i], b[i]) {
        assert ToLower(a)[i] == ToLower(b)[i];
        CharCaseAgree(a[i], b[i]);
      }
    }
  }

  // ---------------------------------------------------------------- decimals

  function DigitChar(d: nat): (c: char)
    requires d < 10
    ensures IsDigit(c)
  {
    ('0' as int + d) as char
  }

  function DigitValue(c: char): nat
    requires IsDigit(c)
  {
    c as int - '0' as int
  }

  /** Decimal digits of a natural number, most significant first, no leading zero. */
  function NatDigits(n: nat): (s: string)
    decreases n
  {
    if n < 10 then [DigitChar(n)] else NatDigits(n / 10) + [DigitChar(n % 10)]
  }

  predicate AllDigits(s: string)
  {
    forall i :: 0 <= i < |s| ==> IsDigit(s[i])
  }

  /** The value a string of decimal digits denotes. */
  function DigitsValue(s: string): nat
    requires AllDigits(s)
    decreases |s|
  {
    if s == [] then 0 else DigitsValue(s[..|s| - 1]) * 10 + DigitValue(s[|s| - 1])
  }

  lemma {:induction false} NatDigitsShape(n: nat)
    ensures |NatDigits(n)| >= 1 && AllDigits(NatDigits(n))
    ensures NatDigits(n)[0] == '0' ==> n == 0
    decreases n
  {
    if n >= 10 {
      NatDigitsShape(n / 10);
    }
  }

  /** Reading back the digits gives the number: `%d` is injective on naturals. */
  lemma {:induction false} NatDigitsRoundTrip(n: nat)
    ensures AllDigits(NatDigits(n)) && DigitsValue(NatDigits(n)) == n
    decreases n
  {
    NatDigitsShape(n);
    if n >= 10 {
      var s := NatDigits(n);
      NatDigitsRoundTrip(n / 10);
      assert s[..|s| - 1] == NatDigits(n / 10);
    }
  }

  /** `String.format("%d", n)`. */
  function Decimal(n: int): (s: string)
  {
    if n < 0 then "-" + NatDigits(-n) else NatDigits(n)
  }

  /** Two naturals with the same digits are equal. */
  lemma NatDigitsInjective(m: nat, n: nat)
    requires NatDigits(m) == NatDigits(n)
    ensures m == n
  {
    NatDigitsRoundTrip(m);
    NatDigitsRoundTrip(n);
  }

  lemma DecimalInjective(m: int, n: int)
    requires Decimal(m) == Decimal(n)
    ensures m == n
  {
    NatDigitsShape(if m < 0 then -m else m);
    NatDigitsShape(if n < 0 then -n else n);
    if m < 0 && n < 0 {
      assert NatDigits(-m) == Decimal(m)[1..] == Decimal(n)[1..] == NatDigits(-n);
      NatDigitsInjective(-m, -n);
    } else if m >= 0 && n >= 0 {
      NatDigitsInjective(m, n);
    } else {
      assert false;
    }
  }

  // ------------------------------------------------------------------ replace

  predicate IsPrefix(p: string, s: string)
  {
    |p| <= |s| && s[..|p|] == p
  }

  predicate OccursAt(target: string, s: string, i: int)
  {
    0 <= i && i + |target| <= |s| && s[i..i + |target|] == target
  }

  /** `target` occurs in `s` at some position. */
  ghost predicate Occurs(target: string, s: string)
  {
    exists i :: OccursAt(target, s, i)
  }

  /**
   * `String.replace(target, replacement)`: every occurrence of `target`,
   * scanned left to right without overlap, is replaced. An empty target puts
   * the replacement before every character and at the end.
   */
  function Replace(s: string, target: string, replacement: string): (r: string)
    decreases |s|
  {
    if target == [] then
      if s == [] then replacement else replacement + [s[0]] + Replace(s[1..], target, replacement)
    else if |s| < |target| then s
    else if IsPrefix(target, s) then replacement + Replace(s[|target|..], target, replacement)
    else [s[0]] + Replace(s[1..], target, replacement)
  }

  /** A string in which the (non-empty) target does not occur is left unchanged. */
  lemma {:induction false} ReplaceAbsent(s: string, target: string, replacement: string)
    requires target != [] && !Occurs(target, s)
    ensures Replace(s, target, replacement) == s
    decreases |s|
  {
    if |s| >= |target| {
      assert !OccursAt(target, s, 0);
      assert s[0..0 + |target|] == s[..|target|];
      assert !IsPrefix(target, s);
      var t := s[1..];
      forall i | 0 <= i && i + |target| <= |t| ensures !OccursAt(target, t, i) {
        assert t[i..i + |target|] == s[i + 1..i + 1 + |target|];
        assert !OccursAt(target, s, i + 1);
      }
      ReplaceAbsent(t, target, replacement);
    }
  }

  /** A target whose first character does not appear in `s` does not occur in `s`. */
  lemma FirstCharAbsent(target: string, s: string)
    requires target != [] && target[0] !in s
    ensures !Occurs(target, s)
  {
    forall i | 0 <= i && i + |target| <= |s| ensures !OccursAt(target, s, i) {
      assert s[i..i + |target|][0] == s[i];
    }
  }

  /** A single occurrence at the very start, and none after it, is replaced once. */
  lemma ReplaceAtFront(target: string, rest: string, replacement: string)
    requires target != [] && !Occurs(target, rest)
    ensures Replace(target + rest, target, replacement) == replacement + rest
  {
    var s := target + rest;
    assert IsPrefix(target, s);
    assert s[|target|..] == rest;
    ReplaceAbsent(rest, target, replacement);
  }

  // ------------------------------------------------------------------ split

  /** The number of occurrences of `c` in `s`. */
  function CountChar(s: string, c: char): nat
  {
    if s == [] then 0 else (if s[0] == c then 1 else 0) + CountChar(s[1..], c)
  }

  /** The pieces between the occurrences of `c`, empty pieces included. */
  function SplitOn(s: string, c: char): (r: seq<string>)
    ensures |r| == CountChar(s, c) + 1
    ensures forall k :: 0 <= k < |r| ==> c !in r[k]
  {
    if s == [] then [""]
    else
      var rest := SplitOn(s[1..], c);
      if s[0] == c then [""] + rest else [[s[0]] + rest[0]] + rest[1..]
  }

  /** The pieces joined back with `c` between them. */
  function Join(pieces: seq<string>, c: char): string
    requires pieces != []
  {
    if |pieces| == 1 then pieces[0] else pieces[0] + [c] + Join(pieces[1..], c)
  }

  /** A split of a string starting with `c` is an empty piece, then the split of the rest. */
  lemma JoinSplitOnSeparator(s: string, c: char)
    requires s != [] && s[0] == c && Join(SplitOn(s[1..], c), c) == s[1..]
    ensures Join(SplitOn(s, c), c) == s
  {
    assert SplitOn(s, c)[1..] == SplitOn(s[1..], c);
    assert [s[0]] + s[1..] == s;
  }

  /** A split of a string starting with another character glues that character onto the first piece. */
  lemma JoinSplitOnGlue(s: string, c: char)
    requires s != [] && s[0] != c && Join(SplitOn(s[1..], c), c) == s[1..]
    ensures Join(SplitOn(s, c), c) == s
  {
    var rest := SplitOn(s[1..], c);
    var r := SplitOn(s, c);
    if |rest| == 1 {
      assert r == [[s[0]] + rest[0]];
      assert rest[0] == Join(rest, c) == s[1..];
      assert [s[0]] + s[1..] == s;
    } else {
      assert r[1..] == rest[1..];
      assert Join(rest, c) == rest[0] + [c] + Join(rest[1..], c);
      assert r[0] + [c] + Join(r[1..], c) == [s[0]] + (rest[0] + [c] + Join(rest[1..], c));
      assert [s[0]] + s[1..] == s;
    }
  }

  /** Joining the pieces of a split gives the string back. */
  lemma {:induction false} JoinSplitOn(s: string, c: char)
    ensures Join(SplitOn(s, c), c) == s
  {
    if s != [] {
      JoinSplitOn(s[1..], c);
      if s[0] == c {
        JoinSplitOnSeparator(s, c);
      } else {
        JoinSplitOnGlue(s, c);
      }
    }
  }

  /** A single piece without `c` splits to itself. */
  lemma SplitOnSingle(p: string, c: char)
    requires c !in p
    ensures SplitOn(Join([p], c), c) == [p]
  {
    SplitOnPiece(p, [], c);
    assert SplitOn([], c) == [""];
    assert p + [] == p && p + "" == p;
  }

  /** A leading `c` splits off an empty piece. */
  lemma SplitOnLeadingSeparator(tail: string, c: char)
    ensures SplitOn([c] + tail, c) == [""] + SplitOn(tail, c)
  {
    assert ([c] + tail)[1..] == tail;
  }

  /** A piece without `c`, then `c`, then a joined tail that splits back, splits into the piece and the tail's pieces. */
  lemma SplitOnCons(pieces: seq<string>, c: char)
    requires |pieces| > 1 && c !in pieces[0]
    requires SplitOn(Join(pieces[1..], c), c) == pieces[1..]
    ensures SplitOn(Join(pieces, c), c) == pieces
  {
    var p := pieces[0];
    var tail := Join(pieces[1..], c);
    var after := [c] + tail;
    assert Join(pieces, c) == p + after;
    SplitOnPiece(p, after, c);
    SplitOnLeadingSeparator(tail, c);
    var t := SplitOn(after, c);
    assert t[0] == "" && t[1..] == pieces[1..];
    assert p + t[0] == p;
    assert [p] + pieces[1..] == pieces;
  }

  /** Splitting pieces that hold no `c`, once joined with `c`, gives the pieces back. */
  lemma {:induction false} SplitOnJoin(pieces: seq<string>, c: char)
    requires pieces != [] && forall k :: 0 <= k < |pieces| ==> c !in pieces[k]
    ensures SplitOn(Join(pieces, c), c) == pieces
    decreases |pieces|
  {
    if |pieces| == 1 {
      SplitOnSingle(pieces[0], c);
      assert pieces == [pieces[0]];
    } else {
      SplitOnJoin(pieces[1..], c);
      SplitOnCons(pieces, c);
    }
  }

  /** A leading piece without `c` glues onto the first piece of what follows. */
  lemma {:induction false} SplitOnPiece(p: string, rest: string, c: char)
    requires c !in p
    ensures var r := SplitOn(p + rest, c);
            var t := SplitOn(rest, c);
            r == [p + t[0]] + t[1..]
    decreases |p|
  {
    if p == [] {
      var t := SplitOn(rest, c);
      assert p + rest == rest;
      assert p + t[0] == t[0];
      assert [t[0]] + t[1..] == t;
    } else {
      SplitOnPiece(p[1..], rest, c);
      assert (p + rest)[1..] == p[1..] + rest;
      assert [p[0]] + (p[1..] + SplitOn(rest, c)[0]) == p + SplitOn(rest, c)[0];
    }
  }

  /** The pieces with the trailing empty ones removed. */
  function DropTrailingEmpty(pieces: seq<string>): (r: seq<string>)
    ensures |r| <= |pieces| && r == pieces[..|r|]
    ensures r != [] ==> r[|r| - 1] != ""
    ensures forall k :: |r| <= k < |pieces| ==> pieces[k] == ""
  {
    if pieces == [] then []
    else if pieces[|pieces| - 1] == "" then DropTrailingEmpty(pieces[..|pieces| - 1])
    else pieces
  }

  /**
   * `String.split` with a one-character separator and no limit: the string
   * itself when the separator does not occur, otherwise the pieces without
   * the trailing empty ones.
   */
  function JavaSplit(s: string, c: char): (r: seq<string>)
  {
    if c !in s then [s] else DropTrailingEmpty(SplitOn(s, c))
  }

  /** More than `n` pieces survive exactly when some piece past the `n`-th is not empty. */
  lemma DropTrailingEmptyLength(pieces: seq<string>, n: nat)
    ensures |DropTrailingEmpty(pieces)| > n <==> exists k :: n <= k < |pieces| && pieces[k] != ""
  {
    var r := DropTrailingEmpty(pieces);
    if |r| > n {
      assert r[|r| - 1] == pieces[|r| - 1];
    }
  }

  /** `String.lastIndexOf(c)`: the position of the last `c`, or -1. */
  function LastIndexOf(s: string, c: char): (r: int)
    ensures -1 <= r < |s|
    ensures r >= 0 ==> s[r] == c && forall j :: r < j < |s| ==> s[j] != c
    ensures r == -1 <==> c !in s
  {
    if s == [] then -1
    else if s[|s| - 1] == c then |s| - 1
    else
      assert forall j :: 0 <= j < |s| - 1 ==> s[..|s| - 1][j] == s[j];
      LastIndexOf(s[..|s| - 1], c)
  }

  /** The string is the part before its last `c`, the `c`, and the part after, which holds no `c`. */
  lemma LastIndexOfSplits(s: string, c: char)
    requires c in s
    ensures var r := LastIndexOf(s, c);
            s == s[..r] + [c] + s[r + 1..] && c !in s[r + 1..]
  {
    var r := LastIndexOf(s, c);
    var after := s[r + 1..];
    assert forall j :: 0 <= j < |after| ==> after[j] == s[r + 1 + j];
    assert s[..r + 1] == s[..r] + [s[r]];
    assert s == s[..r + 1] + after;
  }
}
