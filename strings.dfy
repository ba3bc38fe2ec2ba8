/** Models of the Python string built-ins the feedback analyser relies on:
    `str.strip()`, `str.lower()`, the substring test `sub in s`,
    `re.split(r"[.!?]", s)`, `" ".join(...)`, `str(n)`, `str.isdigit()` and `int(s)`.
    Characters are treated as ASCII: case folding maps only 'A'..'Z', white space is
    the ASCII white space Python recognises, digits are '0'..'9'. */
module Strings {

  // ---------------------------------------------------------------------------
  // White space and str.strip()
  // ---------------------------------------------------------------------------

  /** The ASCII characters for which Python's `str.isspace()` holds:
      tab, line feed, vertical tab, form feed, carriage return,
      the four information separators 0x1C..0x1F, and the space. */
  predicate IsSpace(c: char) {
    c == ' ' || ('\t' <= c <= '\r') || ('\U{1C}' <= c <= '\U{1F}')
  }

  /** `s` has no white space at either end (what `strip()` leaves behind). */
  predicate IsStripped(s: string) {
    s == [] || (!IsSpace(s[0]) && !IsSpace(s[|s| - 1]))
  }

  /** Drops leading white space: the result is a suffix of `s` that does not start
      with white space (TrimStartDropsSpace: everything dropped is white space). */
  function TrimStart(s: string): (r: string)
    ensures |r| <= |s| && r == s[|s| - |r|..]
    ensures r == [] || !IsSpace(r[0])
  {
    if s != [] && IsSpace(s[0]) then TrimStart(s[1..]) else s
  }

  lemma {:induction false} TrimStartDropsSpace(s: string)
    ensures forall k :: 0 <= k < |s| - |TrimStart(s)| ==> IsSpace(s[k])
  {
    if s != [] && IsSpace(s[0]) {
      TrimStartDropsSpace(s[1..]);
      assert forall k :: 1 <= k < |s| ==> s[k] == s[1..][k - 1];
    }
  }

  /** Drops trailing white space: the result is a prefix of `s` that does not end
      with white space (TrimEndDropsSpace: everything dropped is white space). */
  function TrimEnd(s: string): (r: string)
    ensures |r| <= |s| && r == s[..|r|]
    ensures r == [] || !IsSpace(r[|r| - 1])
  {
    if s != [] && IsSpace(s[|s| - 1]) then TrimEnd(s[..|s| - 1]) else s
  }

  lemma {:induction false} TrimEndDropsSpace(s: string)
    ensures forall k :: |TrimEnd(s)| <= k < |s| ==> IsSpace(s[k])
  {
    if s != [] && IsSpace(s[|s| - 1]) {
      TrimEndDropsSpace(s[..|s| - 1]);
    }
  }

  /** Python's `s.strip()`: white space removed at both ends (StripRemovesOnlySpace
      says the result is the piece of `s` that only white space surrounds). */
  function Strip(s: string): (r: string)
    ensures IsStripped(r)
  {
    var t := TrimStart(s);
    var r := TrimEnd(t);
    assert r != [] ==> r[0] == t[0];
    r
  }

  /** `r` is the piece of `s` that starts at `start`, and only white space lies around it. */
  predicate StrippedAt(s: string, r: string, start: int) {
    0 <= start && start + |r| <= |s| && r == s[start..start + |r|] &&
    (forall k :: 0 <= k < start ==> IsSpace(s[k])) &&
    (forall k :: start + |r| <= k < |s| ==> IsSpace(s[k]))
  }

  /** `strip()` removes white space and nothing else: its result is a contiguous piece
      of `s`, and everything outside that piece is white space. */
  lemma StripRemovesOnlySpace(s: string) returns (start: nat)
    ensures StrippedAt(s, Strip(s), start)
  {
    var t := TrimStart(s);
    start := |s| - |t|;
    TrimStartDropsSpace(s);
    TrimEndDropsSpace(t);
    TrimmedBothEnds(s, t, TrimEnd(t), start);
  }

  /** Dropping white space from the front of `s` and then from the back of what is
      left gives the piece of `s` that only white space surrounds. */
  lemma TrimmedBothEnds(s: string, t: string, r: string, start: nat)
    requires start + |t| == |s| && t == s[start..]
    requires forall k :: 0 <= k < start ==> IsSpace(s[k])
    requires |r| <= |t| && r == t[..|r|]
    requires forall k :: |r| <= k < |t| ==> IsSpace(t[k])
    ensures StrippedAt(s, r, start)
  {
    forall k | start + |r| <= k < |s|
      ensures IsSpace(s[k])
    {
      assert s[k] == t[k - start];
    }
  }

  /** A string that is already stripped is left unchanged by `strip()`. */
  lemma StripOfStripped(s: string)
    requires IsStripped(s)
    ensures Strip(s) == s
  {
    assert TrimStart(s) == s;
    assert TrimEnd(s) == s;
  }

  /** `strip()` is idempotent. */
  lemma StripIdempotent(s: string)
    ensures Strip(Strip(s)) == Strip(s)
  {
    StripOfStripped(Strip(s));
  }

  // ---------------------------------------------------------------------------
  // str.lower() and the substring test `sub in s`
  // ---------------------------------------------------------------------------

  function LowerChar(c: char): char {
    if 'A' <= c <= 'Z' then (c as int + 32) as char else c
  }

  /** Python's `s.lower()`, restricted to ASCII case folding. */
  function Lower(s: string): (r: string)
    ensures |r| == |s|
  {
    seq(|s|, i requires 0 <= i < |s| => LowerChar(s[i]))
  }

  /** Python's `sub in s`: `sub` occurs in `s` as a contiguous piece. */
  predicate Contains(s: string, sub: string)
    ensures Contains(s, sub) ==> |sub| <= |s|
  {
    sub <= s || (s != [] && Contains(s[1..], sub))
  }

  /** An occurrence of `sub` at a known position is found by `Contains`. */
  lemma {:induction false} ContainsAt(s: string, sub: string, i: nat)
    requires i + |sub| <= |s| && s[i..i + |sub|] == sub
    ensures Contains(s, sub)
  {
    if i == 0 {
      assert sub <= s;
    } else {
      assert s[1..][i - 1..i - 1 + |sub|] == sub;
      ContainsAt(s[1..], sub, i - 1);
    }
  }

  /** Every occurrence found by `Contains` sits at some position of `s`. */
  lemma {:induction false} ContainsWitness(s: string, sub: string) returns (i: nat)
    requires Contains(s, sub)
    ensures i + |sub| <= |s| && s[i..i + |sub|] == sub
  {
    if sub <= s {
      i := 0;
    } else {
      var j := ContainsWitness(s[1..], sub);
      i := j + 1;
      assert s[i..i + |sub|] == s[1..][j..j + |sub|];
    }
  }

  /** A string contains each piece it is put together from. */
  lemma ContainsMiddle(a: string, b: string, c: string)
    ensures Contains(a + b + c, b)
  {
    assert (a + b + c)[|a|..|a| + |b|] == b;
    ContainsAt(a + b + c, b, |a|);
  }

  /** A string contains each of its suffixes. */
  lemma ContainsSuffix(a: string, b: string)
    ensures Contains(a + b, b)
  {
    assert (a + b)[|a|..|a| + |b|] == b;
    ContainsAt(a + b, b, |a|);
  }

  /** Whatever a string contains, it still contains with more text after it. */
  lemma ContainsExtended(a: string, b: string, sub: string)
    requires Contains(a, sub)
    ensures Contains(a + b, sub)
  {
    var i := ContainsWitness(a, sub);
    assert (a + b)[i..i + |sub|] == a[i..i + |sub|];
    ContainsAt(a + b, sub, i);
  }

  // ---------------------------------------------------------------------------
  // re.split(r"[.!?]", s)
  // ---------------------------------------------------------------------------

  predicate IsTerminator(c: char) {
    c == '.' || c == '!' || c == '?'
  }

  /** `s` holds none of the sentence terminators. */
  predicate NoTerminator(s: string) {
    forall c :: c in s ==> !IsTerminator(c)
  }

  /** Number of sentence terminators in `s`. */
  function Terminators(s: string): nat {
    if s == [] then 0 else (if IsTerminator(s[0]) then 1 else 0) + Terminators(s[1..])
  }

  /** `s` with every sentence terminator removed. */
  function Erase(s: string): string {
    if s == [] then [] else (if IsTerminator(s[0]) then [] else [s[0]]) + Erase(s[1..])
  }

  /** The concatenation of a sequence of strings. */
  function Concat(ss: seq<string>): string {
    if ss == [] then [] else ss[0] + Concat(ss[1..])
  }

  /** Concatenating two lists of strings and then their members is concatenating
      each list's members and then the two results. */
  lemma {:induction false} ConcatAppend(a: seq<string>, b: seq<string>)
    ensures Concat(a + b) == Concat(a) + Concat(b)
  {
    if a == [] {
      assert a + b == b;
    } else {
      var ab := a + b;
      assert ab[0] == a[0];
      assert ab[1..] == a[1..] + b;
      ConcatAppend(a[1..], b);
      calc {
        Concat(ab);
        ab[0] + Concat(ab[1..]);
        a[0] + (Concat(a[1..]) + Concat(b));
        (a[0] + Concat(a[1..])) + Concat(b);
        Concat(a) + Concat(b);
      }
    }
  }

  /** The concatenation of a list of strings contains each of them. */
  lemma ConcatHolds(ss: seq<string>, k: nat)
    requires k < |ss|
    ensures Contains(Concat(ss), ss[k])
  {
    var before := Concat(ss[..k]);
    var after := Concat(ss[k + 1..]);
    assert Concat(ss[k..]) == ss[k] + after by {
      assert ss[k..][0] == ss[k];
      assert ss[k..][1..] == ss[k + 1..];
    }
    assert Concat(ss) == before + Concat(ss[k..]) by {
      assert ss[..k] + ss[k..] == ss;
      ConcatAppend(ss[..k], ss[k..]);
    }
    assert before + (ss[k] + after) == before + ss[k] + after;
    ContainsMiddle(before, ss[k], after);
  }

  /** Python's `re.split(r"[.!?]", s)`: the pieces of `s` between terminators,
      empty pieces included; there is one piece more than there are terminators
      (SplitPieces: no piece holds a terminator, and together they give back `s`
      without its terminators). */
  function Split(s: string): (r: seq<string>)
    ensures |r| == Terminators(s) + 1
  {
    if s == [] then [""]
    else
      var rest := Split(s[1..]);
      if IsTerminator(s[0]) then [""] + rest
      else [[s[0]] + rest[0]] + rest[1..]
  }

  /** No piece of `re.split(r"[.!?]", s)` holds a terminator, and the pieces put
      together give back `s` without its terminators. */
  lemma {:induction false} SplitPieces(s: string)
    ensures forall k :: 0 <= k < |Split(s)| ==> NoTerminator(Split(s)[k])
    ensures Concat(Split(s)) == Erase(s)
  {
    if s != [] {
      var rest := Split(s[1..]);
      SplitPieces(s[1..]);
      if !IsTerminator(s[0]) {
        var r := Split(s);
        assert r[0] == [s[0]] + rest[0];
        assert r[1..] == rest[1..];
        assert Concat(rest) == rest[0] + Concat(rest[1..]);
        assert Concat(r) == r[0] + Concat(r[1..]);
      }
    }
  }

  /** The sentence terminators of `s`, in the order they occur. */
  function Terms(s: string): (ts: string)
    ensures |ts| == Terminators(s)
    ensures forall k :: 0 <= k < |ts| ==> IsTerminator(ts[k])
  {
    if s == [] then []
    else (if IsTerminator(s[0]) then [s[0]] else []) + Terms(s[1..])
  }

  /** The pieces put back together with one terminator between each neighbouring
      pair, the terminators taken in order. */
  function Rejoin(pieces: seq<string>, ts: string): string
    requires |pieces| == |ts| + 1
  {
    if ts == [] then pieces[0]
    else pieces[0] + [ts[0]] + Rejoin(pieces[1..], ts[1..])
  }

  /** Prefixing the first piece prefixes the rejoined text. */
  lemma {:induction false} RejoinCons(c: char, pieces: seq<string>, ts: string)
    requires |pieces| == |ts| + 1
    ensures Rejoin([[c] + pieces[0]] + pieces[1..], ts) == [c] + Rejoin(pieces, ts)
  {
    var p := [[c] + pieces[0]] + pieces[1..];
    assert p[0] == [c] + pieces[0];
    if ts != [] {
      assert p[1..] == pieces[1..];
    }
  }

  /** `re.split(r"[.!?]", s)` cuts `s` exactly at its terminators: putting the
      pieces back together with the terminators gives `s` again. */
  lemma {:induction false} SplitRejoin(s: string)
    ensures Rejoin(Split(s), Terms(s)) == s
  {
    if s != [] {
      var rest := Split(s[1..]);
      SplitRejoin(s[1..]);
      if IsTerminator(s[0]) {
        var r := [""] + rest;
        assert r[0] == "" && r[1..] == rest;
        assert Terms(s) == [s[0]] + Terms(s[1..]);
        assert Rejoin(r, Terms(s)) == "" + [s[0]] + s[1..];
      } else {
        assert Terms(s) == Terms(s[1..]);
        RejoinCons(s[0], rest, Terms(s[1..]));
      }
    }
  }

  lemma {:induction false} EraseNoTerminator(s: string)
    requires NoTerminator(s)
    ensures Erase(s) == s && Terminators(s) == 0
  {
    if s != [] {
      assert s[0] in s;
      assert forall c :: c in s[1..] ==> c in s;
      EraseNoTerminator(s[1..]);
    }
  }

  /** A string without terminators splits into itself alone. */
  lemma SplitNoTerminator(s: string)
    requires NoTerminator(s)
    ensures Split(s) == [s]
  {
    EraseNoTerminator(s);
    SplitPieces(s);
    var r := Split(s);
    assert Concat(r) == r[0] + Concat(r[1..]);
  }

  // ---------------------------------------------------------------------------
  // " ".join(ss)
  // ---------------------------------------------------------------------------

  /** Python's `" ".join(ss)`. */
  function JoinSpace(ss: seq<string>): string {
    if ss == [] then ""
    else if |ss| == 1 then ss[0]
    else ss[0] + " " + JoinSpace(ss[1..])
  }

  /** Joining pieces that hold no terminator gives a string that holds none. */
  lemma {:induction false} JoinSpaceNoTerminator(ss: seq<string>)
    requires forall k :: 0 <= k < |ss| ==> NoTerminator(ss[k])
    ensures NoTerminator(JoinSpace(ss))
  {
    if |ss| > 1 {
      JoinSpaceNoTerminator(ss[1..]);
      assert NoTerminator(ss[0]);
      assert NoTerminator(" ");
    }
  }

  // ---------------------------------------------------------------------------
  // str(n), str.isdigit() and int(s)
  // ---------------------------------------------------------------------------

  function DigitChar(d: nat): char
    requires d < 10
  {
    ('0' as int + d) as char
  }

  predicate IsDigit(c: char) {
    '0' <= c <= '9'
  }

  /** Python's `s.isdigit()` over ASCII: non-empty and decimal digits only. */
  predicate IsDigits(s: string) {
    s != [] && forall c :: c in s ==> IsDigit(c)
  }

  /** The decimal digits of `n`, most significant first, without leading zeros. */
  function Digits(n: nat): string {
    if n < 10 then [DigitChar(n)] else Digits(n / 10) + [DigitChar(n % 10)]
  }

  /** Python's `str(n)` for an integer. */
  function Show(n: int): string {
    if n < 0 then "-" + Digits(-n) else Digits(n)
  }

  /** Python's `int(s)` for a string of decimal digits (leading zeros allowed). The
      empty string is only the recursion's base case: Python's `int("")` raises, and
      every caller first checks `IsDigits`. */
  function ParseDigits(s: string): nat
    requires forall c :: c in s ==> IsDigit(c)
  {
    if s == [] then 0
    else
      assert forall c :: c in s[..|s| - 1] ==> c in s;
      assert s[|s| - 1] in s;
      assert IsDigit(s[|s| - 1]);
      10 * ParseDigits(s[..|s| - 1]) + (s[|s| - 1] as int - '0' as int)
  }

  /** `int(str(n)) == n` for every natural number, and `str(n)` passes `isdigit()`. */
  lemma {:induction false} ParseShow(n: nat)
    ensures IsDigits(Show(n)) && ParseDigits(Show(n)) == n
  {
    if n >= 10 {
      ParseShow(n / 10);
      var d := Digits(n / 10) + [DigitChar(n % 10)];
      assert d[..|d| - 1] == Digits(n / 10);
      assert forall c :: c in d ==> c in Digits(n / 10) || c == DigitChar(n % 10);
    }
  }
}
