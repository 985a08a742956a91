/** Helpers shared by the storefront model: optional values, the JavaScript
    string operations the pages rely on, first-occurrence de-duplication (what
    `Array.from(new Set(...))` and object keys do) and cyclic indices. */
module Common {

  datatype Option<+T> = None | Some(value: T)

  /** JavaScript `a || b` on strings: the empty string is the only falsy string. */
  function Or(a: string, b: string): string
  {
    if a != "" then a else b
  }

  function MinInt(a: int, b: int): int { if a <= b then a else b }
  function MaxInt(a: int, b: int): int { if a >= b then a else b }
  function MinReal(a: real, b: real): real { if a <= b then a else b }
  function MaxReal(a: real, b: real): real { if a >= b then a else b }

  // ---------------------------------------------------------------------------
  // Characters

  /** The characters that `\s`, `String.prototype.trim` and `parseInt` treat as
      white space: WhiteSpace and LineTerminator of ECMA-262 (section 12.2 and
      12.3 of ECMA-262, 14th edition). */
  predicate IsWs(c: char)
  {
    || c == '\t' || c == '\n' || c == '\U{000B}' || c == '\U{000C}' || c == '\r'
    || c == ' ' || c == '\U{00A0}' || c == '\U{1680}' || ('\U{2000}' <= c <= '\U{200A}')
    || c == '\U{2028}' || c == '\U{2029}' || c == '\U{202F}' || c == '\U{205F}'
    || c == '\U{3000}' || c == '\U{FEFF}'
  }

  predicate NoWs(s: string)
  {
    forall i :: 0 <= i < |s| ==> !IsWs(s[i])
  }

  /** `s` without its leading white space. */
  function TrimStart(s: string): string
  {
    if s != [] && IsWs(s[0]) then TrimStart(s[1..]) else s
  }

  /** Trimming the start leaves a suffix that does not start with white space. */
  lemma {:induction false} TrimStartSuffix(s: string)
    ensures var r := TrimStart(s);
      |r| <= |s| && r == s[|s| - |r|..] && (r == [] || !IsWs(r[0]))
  {
    if s != [] && IsWs(s[0]) {
      TrimStartSuffix(s[1..]);
    }
  }

  /** `s` without its trailing white space. */
  function TrimEnd(s: string): string
  {
    if s != [] && IsWs(s[|s| - 1]) then TrimEnd(s[..|s| - 1]) else s
  }

  /** Trimming the end leaves a prefix that does not end with white space. */
  lemma {:induction false} TrimEndPrefix(s: string)
    ensures var r := TrimEnd(s);
      |r| <= |s| && r == s[..|r|] && (r == [] || !IsWs(r[|r| - 1]))
  {
    if s != [] && IsWs(s[|s| - 1]) {
      TrimEndPrefix(s[..|s| - 1]);
    }
  }

  /** `String.prototype.trim`. */
  function Trim(s: string): string
  {
    TrimEnd(TrimStart(s))
  }

  /** Trimming adds no character, so it keeps a string free of upper-case
      letters. */
  lemma TrimNoUpper(s: string)
    requires NoUpper(s)
    ensures NoUpper(Trim(s))
  {
    var t := TrimStart(s);
    var r := TrimEnd(t);
    TrimStartSuffix(s);
    TrimEndPrefix(t);
    forall i | 0 <= i < |r| ensures !IsUpper(r[i]) {
      assert r[i] == t[i] == s[|s| - |t| + i];
    }
  }

  /** Trimming changes nothing on a string that neither starts nor ends with
      white space. */
  lemma TrimUnchanged(s: string)
    requires s == [] || (!IsWs(s[0]) && !IsWs(s[|s| - 1]))
    ensures Trim(s) == s
  {
    assert TrimStart(s) == s;
  }

  /** The two facts above, and the second for a string without white space. */
  lemma TrimFacts(s: string)
    ensures NoUpper(s) ==> NoUpper(Trim(s))
    ensures s == [] || (!IsWs(s[0]) && !IsWs(s[|s| - 1])) ==> Trim(s) == s
    ensures NoWs(s) ==> Trim(s) == s
  {
    if NoUpper(s) {
      TrimNoUpper(s);
    }
    if s == [] || (!IsWs(s[0]) && !IsWs(s[|s| - 1])) {
      TrimUnchanged(s);
    }
    if NoWs(s) && s != [] {
      assert !IsWs(s[0]) && !IsWs(s[|s| - 1]);
      TrimUnchanged(s);
    }
  }

  predicate IsDigit(c: char) { '0' <= c <= '9' }

  predicate IsHexDigit(c: char) { IsDigit(c) || 'a' <= c <= 'f' || 'A' <= c <= 'F' }

  predicate AllHex(s: string)
  {
    forall i :: 0 <= i < |s| ==> IsHexDigit(s[i])
  }

  predicate IsUpper(c: char) { 'A' <= c <= 'Z' }

  predicate IsLowerLetter(c: char) { 'a' <= c <= 'z' }

  function HexDigitValue(c: char): (d: nat)
    requires IsHexDigit(c)
    ensures d < 16
  {
    if IsDigit(c) then c as int - '0' as int
    else if 'a' <= c <= 'f' then c as int - 'a' as int + 10
    else c as int - 'A' as int + 10
  }

  /** ASCII case mapping; `toLowerCase`/`toUpperCase` beyond ASCII are not modelled. */
  function LowerChar(c: char): char
  {
    if IsUpper(c) then (c as int + 32) as char else c
  }

  function UpperChar(c: char): char
  {
    if IsLowerLetter(c) then (c as int - 32) as char else c
  }

  function Lower(s: string): string
  {
    seq(|s|, i requires 0 <= i < |s| => LowerChar(s[i]))
  }

  predicate NoUpper(s: string)
  {
    forall i :: 0 <= i < |s| ==> !IsUpper(s[i])
  }

  /** Lower-casing leaves no upper-case letter, and is the identity on a string
      that has none. */
  lemma LowerFacts(s: string)
    ensures |Lower(s)| == |s| && NoUpper(Lower(s))
    ensures NoUpper(s) ==> Lower(s) == s
  {
  }

  predicate StartsWith(s: string, p: string)
  {
    |p| <= |s| && s[..|p|] == p
  }

  /** Case-insensitive prefix test as a JavaScript `/^p/i` regular expression
      performs it for an ASCII pattern `p` written in lower case: outside
      ASCII the `i` flag folds no character onto an ASCII letter. */
  predicate StartsWithIgnoringCase(s: string, p: string)
  {
    |p| <= |s| && Lower(s[..|p|]) == p
  }

  /** `String.prototype.includes`. */
  predicate Contains(s: string, sub: string)
    decreases |s|
  {
    StartsWith(s, sub) || (s != [] && Contains(s[1..], sub))
  }

  // ---------------------------------------------------------------------------
  // Ordinal string comparison, standing in for `localeCompare`

  /** -1, 0 or 1 as `a` sorts before, equal to or after `b` in code-point order. */
  function LexCompare(a: string, b: string): (r: int)
    ensures -1 <= r <= 1
  {
    if a == [] && b == [] then 0
    else if a == [] then -1
    else if b == [] then 1
    else if a[0] < b[0] then -1
    else if a[0] > b[0] then 1
    else LexCompare(a[1..], b[1..])
  }

  lemma {:induction false} LexCompareFlip(a: string, b: string)
    ensures LexCompare(a, b) == -LexCompare(b, a)
  {
    if a != [] && b != [] && a[0] == b[0] {
      LexCompareFlip(a[1..], b[1..]);
    }
  }

  lemma {:induction false} LexCompareZero(a: string, b: string)
    ensures LexCompare(a, b) == 0 <==> a == b
  {
    if a != [] && b != [] && a[0] == b[0] {
      LexCompareZero(a[1..], b[1..]);
      assert a == [a[0]] + a[1..] && b == [b[0]] + b[1..];
    }
  }

  lemma {:induction false} LexCompareTransitive(a: string, b: string, c: string)
    requires LexCompare(a, b) <= 0 && LexCompare(b, c) <= 0
    ensures LexCompare(a, c) <= 0
  {
    if a != [] && b != [] && c != [] && a[0] == b[0] && b[0] == c[0] {
      LexCompareTransitive(a[1..], b[1..], c[1..]);
    }
  }

  // ---------------------------------------------------------------------------
  // First-occurrence de-duplication

  ghost predicate NoDup<T>(s: seq<T>)
  {
    forall i, j :: 0 <= i < j < |s| ==> s[i] != s[j]
  }

  /** `seen` followed by the elements of `rest` not met before, in the order of
      their first occurrence. */
  function DedupeFrom(seen: seq<string>, rest: seq<string>): (r: seq<string>)
    ensures |seen| <= |r| && r[..|seen|] == seen
    ensures forall x :: x in r <==> x in seen || x in rest
    ensures NoDup(seen) ==> NoDup(r)
    decreases |rest|
  {
    if rest == [] then seen
    else if rest[0] in seen then DedupeFrom(seen, rest[1..])
    else DedupeFrom(seen + [rest[0]], rest[1..])
  }

  function Dedupe(s: seq<string>): seq<string>
  {
    DedupeFrom([], s)
  }

  /** When nothing repeats, de-duplication changes nothing. */
  lemma {:induction false} DedupeFromDistinct(seen: seq<string>, rest: seq<string>)
    requires NoDup(seen + rest)
    ensures DedupeFrom(seen, rest) == seen + rest
    decreases |rest|
  {
    if rest != [] {
      assert rest[0] == (seen + rest)[|seen|];
      assert rest[0] !in seen by {
        forall i | 0 <= i < |seen| ensures seen[i] != rest[0] {
          assert seen[i] == (seen + rest)[i];
        }
      }
      assert seen + rest == (seen + [rest[0]]) + rest[1..];
      DedupeFromDistinct(seen + [rest[0]], rest[1..]);
    }
  }

  /** De-duplicating a concatenation keeps the de-duplicated first part as a prefix. */
  lemma {:induction false} DedupeFromAppend(seen: seq<string>, a: seq<string>, b: seq<string>)
    ensures DedupeFrom(seen, a + b) == DedupeFrom(DedupeFrom(seen, a), b)
    decreases |a|
  {
    if a == [] {
      assert a + b == b;
    } else {
      assert (a + b)[0] == a[0] && (a + b)[1..] == a[1..] + b;
      if a[0] in seen {
        DedupeFromAppend(seen, a[1..], b);
      } else {
        DedupeFromAppend(seen + [a[0]], a[1..], b);
      }
    }
  }

  // ---------------------------------------------------------------------------
  // Cyclic indices: `(i + 1) % n` and `(i - 1 + n) % n`

  function NextIndex(i: int, n: int): (r: int)
    requires 0 <= i < n
    ensures 0 <= r < n
    ensures r == if i + 1 < n then i + 1 else 0
  {
    (i + 1) % n
  }

  function PrevIndex(i: int, n: int): (r: int)
    requires 0 <= i < n
    ensures 0 <= r < n
    ensures r == if i == 0 then n - 1 else i - 1
  {
    (i - 1 + n) % n
  }

  /** Stepping back undoes stepping forward, and the other way round. */
  lemma PrevUndoesNext(i: int, n: int)
    requires 0 <= i < n
    ensures PrevIndex(NextIndex(i, n), n) == i
    ensures NextIndex(PrevIndex(i, n), n) == i
  {
  }
}
