/** Shared vocabulary of the client model: optional values, the outcome of a
    REST call, and the few string and list operations of JavaScript that the
    pages rely on (lower-casing, substring search, split/trim, decimal
    conversion, Array.prototype.slice, filter and map by record id). */
module Common {

  datatype Option<+T> = None | Some(value: T) {
    /** `value || fallback` for an optional value. */
    function GetOr(fallback: T): T {
      match this
      case Some(v) => v
      case None => fallback
    }
  }

  /** What a call through the API wrapper gives back: the decoded body, or a
      thrown error with an HTTP status when one is attached and its message. */
  datatype ApiOutcome<+T> = Ok(value: T) | Err(status: Option<int>, message: string)

  // ---------------------------------------------------------------------------
  // Characters and strings

  predicate IsAsciiUpper(c: char) { 'A' <= c <= 'Z' }
  predicate IsAsciiLower(c: char) { 'a' <= c <= 'z' }
  predicate IsDigit(c: char) { '0' <= c <= '9' }

  /** String.prototype.toLowerCase restricted to ASCII letters. */
  function LowerChar(c: char): (r: char)
    ensures !IsAsciiUpper(r)
    ensures !IsAsciiUpper(c) ==> r == c
  {
    if IsAsciiUpper(c) then (c as int + 32) as char else c
  }

  /** String.prototype.toUpperCase restricted to ASCII letters. */
  function UpperChar(c: char): (r: char)
    ensures !IsAsciiLower(r)
    ensures !IsAsciiLower(c) ==> r == c
  {
    if IsAsciiLower(c) then (c as int - 32) as char else c
  }

  function ToLower(s: string): (r: string)
    ensures |r| == |s|
    ensures forall i :: 0 <= i < |s| ==> r[i] == LowerChar(s[i])
  {
    if s == [] then [] else [LowerChar(s[0])] + ToLower(s[1..])
  }

  predicate IsPrefix(p: string, s: string) {
    |p| <= |s| && s[..|p|] == p
  }

  /** String.prototype.includes: `sub` occurs somewhere in `s`. */
  predicate Contains(s: string, sub: string)
    decreases |s|
  {
    IsPrefix(sub, s) || (|s| > 0 && Contains(s[1..], sub))
  }

  /** `sub` occurs in `s` starting at index `i`. */
  predicate OccursAt(s: string, sub: string, i: int) {
    0 <= i <= |s| - |sub| && s[i..i + |sub|] == sub
  }

  /** The recursive definition of Contains agrees with "occurs at some index". */
  lemma {:induction false} ContainsAt(s: string, sub: string)
    ensures Contains(s, sub) <==> exists i :: OccursAt(s, sub, i)
    decreases |s|
  {
    if IsPrefix(sub, s) {
      assert OccursAt(s, sub, 0);
    } else if |s| > 0 {
      ContainsAt(s[1..], sub);
      if Contains(s[1..], sub) {
        var j :| OccursAt(s[1..], sub, j);
        assert s[j + 1..j + 1 + |sub|] == s[1..][j..j + |sub|];
        assert OccursAt(s, sub, j + 1);
      }
      if i :| OccursAt(s, sub, i) {
        assert i != 0;
        assert s[1..][i - 1..i - 1 + |sub|] == s[i..i + |sub|];
        assert OccursAt(s[1..], sub, i - 1);
      }
    } else {
      assert IsPrefix([], s);
    }
  }

  /** The characters String.prototype.trim removes (ASCII whitespace only). */
  predicate IsSpace(c: char) {
    c == ' ' || c == '\t' || c == '\n' || c == '\r' || c == '\U{000B}' || c == '\U{000C}'
  }

  /** The number of whitespace characters `s` starts with. */
  function LeadingSpaces(s: string): (n: nat)
    ensures n <= |s|
    ensures forall i :: 0 <= i < n ==> IsSpace(s[i])
    ensures n < |s| ==> !IsSpace(s[n])
  {
    if s != [] && IsSpace(s[0]) then
      assert forall i :: 1 <= i < |s| ==> s[i] == s[1..][i - 1];
      1 + LeadingSpaces(s[1..])
    else 0
  }

  /** The number of whitespace characters `s` ends with. */
  function TrailingSpaces(s: string): (n: nat)
    ensures n <= |s|
    ensures forall i :: |s| - n <= i < |s| ==> IsSpace(s[i])
    ensures n < |s| ==> !IsSpace(s[|s| - n - 1])
  {
    if s != [] && IsSpace(s[|s| - 1]) then
      assert forall i :: 0 <= i < |s| - 1 ==> s[i] == s[..|s| - 1][i];
      1 + TrailingSpaces(s[..|s| - 1])
    else 0
  }

  /** `r` sits in `s` at `k`, and everything of `s` around it is whitespace. */
  predicate TrimmedAt(s: string, r: string, k: int) {
    OccursAt(s, r, k) && (forall i :: 0 <= i < k ==> IsSpace(s[i])) &&
    (forall i :: k + |r| <= i < |s| ==> IsSpace(s[i]))
  }

  /** String.prototype.trim: the result is a contiguous piece of `s` with no
      whitespace at either end, and everything cut off is whitespace. */
  function Trim(s: string): (r: string)
    ensures r == [] || (!IsSpace(r[0]) && !IsSpace(r[|r| - 1]))
    ensures exists k :: TrimmedAt(s, r, k)
  {
    var a := LeadingSpaces(s);
    var t := s[a..];
    var b := TrailingSpaces(t);
    assert forall i :: a <= i < |s| ==> s[i] == t[i - a];
    assert TrimmedAt(s, s[a..|s| - b], a);
    s[a..|s| - b]
  }

  /** Trimming never brings in a character the string did not hold. */
  lemma TrimOmits(s: string, c: char)
    requires c !in s
    ensures c !in Trim(s)
  {
    var k :| TrimmedAt(s, Trim(s), k);
  }

  /** String.prototype.split with a one-character separator: always at least
      one piece, and no piece contains the separator. */
  function Split(s: string, sep: char): (r: seq<string>)
    ensures |r| >= 1
    ensures forall i :: 0 <= i < |r| ==> sep !in r[i]
  {
    if s == [] then [""]
    else
      var rest := Split(s[1..], sep);
      if s[0] == sep then [""] + rest
      else [[s[0]] + rest[0]] + rest[1..]
  }

  /** Array.prototype.join with a one-character separator. */
  function Join(pieces: seq<string>, sep: char): string {
    if pieces == [] then ""
    else if |pieces| == 1 then pieces[0]
    else pieces[0] + [sep] + Join(pieces[1..], sep)
  }

  function CountChar(s: string, c: char): nat {
    if s == [] then 0 else (if s[0] == c then 1 else 0) + CountChar(s[1..], c)
  }

  /** Splitting and joining on the same separator gives the input back. */
  lemma {:induction false} JoinSplit(s: string, sep: char)
    ensures Join(Split(s, sep), sep) == s
  {
    if s != [] {
      JoinSplit(s[1..], sep);
      var rest := Split(s[1..], sep);
      if s[0] == sep {
        assert Split(s, sep) == [""] + rest;
        assert ([""] + rest)[1..] == rest;
      } else {
        var pieces := Split(s, sep);
        assert pieces == [[s[0]] + rest[0]] + rest[1..];
        if |rest| == 1 {
          assert Join(rest, sep) == rest[0];
        } else {
          assert pieces[1..] == rest[1..];
          assert Join(rest, sep) == rest[0] + [sep] + Join(rest[1..], sep);
        }
      }
    }
  }

  /** A string without the separator is one piece. */
  lemma {:induction false} SplitNoSep(s: string, sep: char)
    requires sep !in s
    ensures Split(s, sep) == [s]
  {
    if s != [] {
      SplitNoSep(s[1..], sep);
      assert [s[0]] + s[1..] == s;
    }
  }

  /** A leading piece without the separator, then the separator, splits off
      as the first piece. */
  lemma {:induction false} SplitAfterPiece(a: string, b: string, sep: char)
    requires sep !in a
    ensures Split(a + [sep] + b, sep) == [a] + Split(b, sep)
  {
    var s := a + [sep] + b;
    if a == [] {
      assert s == [sep] + b && s[1..] == b;
    } else {
      SplitAfterPiece(a[1..], b, sep);
      assert s[0] == a[0] && s[1..] == a[1..] + [sep] + b;
      assert [a[0]] + a[1..] == a;
    }
  }

  /** There is one more piece than there are separators in the input. */
  lemma {:induction false} SplitCount(s: string, sep: char)
    ensures |Split(s, sep)| == CountChar(s, sep) + 1
  {
    if s != [] {
      SplitCount(s[1..], sep);
    }
  }

  // ---------------------------------------------------------------------------
  // Decimal numbers

  function DigitValue(c: char): nat
    requires IsDigit(c)
  {
    c as int - '0' as int
  }

  function DigitChar(d: nat): (c: char)
    requires d < 10
    ensures IsDigit(c) && DigitValue(c) == d
  {
    ('0' as int + d) as char
  }

  predicate AllDigits(s: string) {
    forall i :: 0 <= i < |s| ==> IsDigit(s[i])
  }

  /** The value of a string of decimal digits (parseInt on such a string). */
  function ParseDigits(s: string): nat
    requires AllDigits(s)
  {
    if s == [] then 0 else ParseDigits(s[..|s| - 1]) * 10 + DigitValue(s[|s| - 1])
  }

  /** Number.prototype.toString for a non-negative integer. */
  function NatToString(n: nat): (r: string)
    ensures |r| >= 1 && AllDigits(r)
  {
    if n < 10 then [DigitChar(n)] else NatToString(n / 10) + [DigitChar(n % 10)]
  }

  /** Reading back the decimal text of a number gives the number. */
  lemma {:induction false} ParseNatToString(n: nat)
    ensures ParseDigits(NatToString(n)) == n
  {
    var s := NatToString(n);
    if n >= 10 {
      ParseNatToString(n / 10);
      assert s[..|s| - 1] == NatToString(n / 10);
    }
  }

  // ---------------------------------------------------------------------------
  // Lists

  /** Array.prototype.slice(start, end) for non-negative bounds: indices past
      the end are clamped to the length. */
  function Slice<T>(xs: seq<T>, start: nat, end: nat): (r: seq<T>)
    ensures |r| <= |xs| && (end >= start ==> |r| <= end - start)
    ensures start <= |xs| && end >= start ==> |r| == (if end <= |xs| then end else |xs|) - start
    ensures forall i :: 0 <= i < |r| ==> start + i < |xs| && r[i] == xs[start + i]
  {
    var s := if start <= |xs| then start else |xs|;
    var e := if end <= |xs| then end else |xs|;
    if e <= s then [] else xs[s..e]
  }

  function Min(a: int, b: int): int { if a <= b then a else b }

  /** The rows of one page: `list.slice(page * rows, page * rows + rows)`.
      A page past the end is empty; otherwise it holds the rows from
      page * rows on, as many as the page size allows and the list has. */
  function PageRows<T>(list: seq<T>, page: nat, rowsPerPage: nat): (r: seq<T>)
    ensures |r| == if page * rowsPerPage >= |list| then 0 else Min(rowsPerPage, |list| - page * rowsPerPage)
    ensures forall i :: 0 <= i < |r| ==> page * rowsPerPage + i < |list| && r[i] == list[page * rowsPerPage + i]
  {
    Slice(list, page * rowsPerPage, page * rowsPerPage + rowsPerPage)
  }

  /** `a` is `b` with some elements left out, order kept. */
  predicate IsSubsequence<T(==)>(a: seq<T>, b: seq<T>)
    decreases |b|
  {
    if a == [] then true
    else if b == [] then false
    else (a[0] == b[0] && IsSubsequence(a[1..], b[1..])) || IsSubsequence(a, b[1..])
  }

  lemma {:induction false} SubsequenceReflexive<T>(a: seq<T>)
    ensures IsSubsequence(a, a)
  {
    if a != [] {
      SubsequenceReflexive(a[1..]);
    }
  }

  /** `xs.filter(x => idOf(x) !== id)`. */
  function WithoutId<T>(xs: seq<T>, id: string, idOf: T -> string): (r: seq<T>)
    ensures |r| <= |xs|
    ensures forall x :: x in r ==> x in xs && idOf(x) != id
    ensures forall x :: x in xs && idOf(x) != id ==> x in r
    ensures forall x :: x in xs ==> multiset(r)[x] == if idOf(x) != id then multiset(xs)[x] else 0
  {
    if xs == [] then []
    else
      assert xs == [xs[0]] + xs[1..];
      if idOf(xs[0]) == id then WithoutId(xs[1..], id, idOf)
      else [xs[0]] + WithoutId(xs[1..], id, idOf)
  }

  /** Removing by id keeps the survivors in their original order, and
      removes nothing when no element carries the id. */
  lemma {:induction false} WithoutIdOrder<T>(xs: seq<T>, id: string, idOf: T -> string)
    ensures IsSubsequence(WithoutId(xs, id, idOf), xs)
    ensures (forall x :: x in xs ==> idOf(x) != id) ==> WithoutId(xs, id, idOf) == xs
  {
    if xs != [] {
      WithoutIdOrder(xs[1..], id, idOf);
      var r := WithoutId(xs, id, idOf);
      var rest := WithoutId(xs[1..], id, idOf);
      if idOf(xs[0]) == id {
        assert r == rest;
        SubsequenceSkip(rest, xs);
      } else {
        assert r == [xs[0]] + rest && r[1..] == rest;
      }
    }
  }

  lemma SubsequenceSkip<T>(a: seq<T>, b: seq<T>)
    requires b != [] && IsSubsequence(a, b[1..])
    ensures IsSubsequence(a, b)
  {
  }

  /** `xs.map(x => idOf(x) === id ? f(x) : x)`. */
  function MapWhereId<T>(xs: seq<T>, id: string, idOf: T -> string, f: T -> T): (r: seq<T>)
    ensures |r| == |xs|
    ensures forall i :: 0 <= i < |xs| ==> r[i] == if idOf(xs[i]) == id then f(xs[i]) else xs[i]
  {
    if xs == [] then []
    else [if idOf(xs[0]) == id then f(xs[0]) else xs[0]] + MapWhereId(xs[1..], id, idOf, f)
  }

  /** `xs.find(x => idOf(x) === id)`: the first element carrying the id. */
  function FindById<T>(xs: seq<T>, id: string, idOf: T -> string): (r: Option<T>)
    ensures r.None? <==> forall x :: x in xs ==> idOf(x) != id
    ensures r.Some? ==> exists i :: 0 <= i < |xs| && xs[i] == r.value && idOf(r.value) == id &&
                                   forall j :: 0 <= j < i ==> idOf(xs[j]) != id
    ensures forall i :: 0 <= i < |xs| && idOf(xs[i]) == id && (forall j :: 0 <= j < i ==> idOf(xs[j]) != id) ==>
                        r == Some(xs[i])
  {
    if xs == [] then None
    else if idOf(xs[0]) == id then Some(xs[0])
    else
      var r := FindById(xs[1..], id, idOf);
      assert forall i :: 1 <= i < |xs| ==> xs[i] == xs[1..][i - 1];
      r
  }
}
