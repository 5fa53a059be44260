/** Shared vocabulary of the model: optional values and results, the JSON-like
    values that event payloads and ticket histories carry, and the few Python
    string and list idioms the backend relies on (substring tests, `lower()`,
    slicing with possibly negative bounds, `", ".join`, `str(int)`). */
module Common {

  datatype Option<T> = None | Some(value: T) {
    function GetOr(default: T): T {
      match this
      case Some(v) => v
      case None => default
    }
  }

  datatype Result<T, E> = Ok(value: T) | Err(error: E)

  /** FastAPI's `HTTPException`: a status code and a detail text. */
  datatype HttpError = HttpError(status: int, detail: string)

  /** A JSON-like value: what a Python payload dictionary may hold. */
  datatype Value =
    | VNull
    | VBool(b: bool)
    | VInt(i: int)
    | VStr(s: string)
    | VList(items: seq<Value>)
    | VObj(fields: map<string, Value>)

  type Payload = map<string, Value>

  /** Python's truthiness of an optional string: None and "" are false. */
  predicate Truthy(o: Option<string>) {
    o.Some? && o.value != ""
  }

  function OptStr(o: Option<string>): Value {
    match o
    case Some(s) => VStr(s)
    case None => VNull
  }

  function OptInt(o: Option<int>): Value {
    match o
    case Some(i) => VInt(i)
    case None => VNull
  }

  function StrList(xs: seq<string>): (v: Value)
    ensures v.VList? && |v.items| == |xs|
    ensures forall i :: 0 <= i < |xs| ==> v.items[i] == VStr(xs[i])
  {
    VList(seq(|xs|, i requires 0 <= i < |xs| => VStr(xs[i])))
  }

  // ---------------------------------------------------------------- strings

  /** `sub in s` for Python strings. */
  predicate Contains(s: string, sub: string)
    decreases |s|
  {
    sub <= s || (|s| > 0 && Contains(s[1..], sub))
  }

  /** `sub` occurs in `s` starting at position i. */
  predicate OccursAt(s: string, sub: string, i: int) {
    0 <= i <= |s| - |sub| && s[i..i + |sub|] == sub
  }

  /** Contains agrees with the positional definition of a substring. */
  lemma {:induction false} ContainsAt(s: string, sub: string)
    ensures Contains(s, sub) <==> exists i :: OccursAt(s, sub, i)
    decreases |s|
  {
    if sub <= s {
      assert s[0..|sub|] == sub;
      assert OccursAt(s, sub, 0);
    } else if |s| == 0 {
      assert !Contains(s, sub);
    } else {
      ContainsAt(s[1..], sub);
      if exists i :: OccursAt(s, sub, i) {
        var i :| OccursAt(s, sub, i);
        OccursShiftDown(s, sub, i);
      }
      if Contains(s[1..], sub) {
        var j :| OccursAt(s[1..], sub, j);
        OccursShiftUp(s, sub, j);
      }
    }
  }

  lemma OccursShiftDown(s: string, sub: string, i: int)
    requires OccursAt(s, sub, i) && !(sub <= s)
    ensures |s| > 0 && OccursAt(s[1..], sub, i - 1)
  {
    assert i != 0;
    assert s[1..][i - 1..i - 1 + |sub|] == s[i..i + |sub|];
  }

  lemma OccursShiftUp(s: string, sub: string, j: int)
    requires |s| > 0 && OccursAt(s[1..], sub, j)
    ensures OccursAt(s, sub, j + 1)
  {
    assert s[j + 1..j + 1 + |sub|] == s[1..][j..j + |sub|];
  }

  function LowerChar(c: char): char {
    if 'A' <= c <= 'Z' then (c as int - 'A' as int + 'a' as int) as char else c
  }

  /** Python's `str.lower()`, restricted to the ASCII letters (Thai has no case). */
  function Lower(s: string): (r: string)
    ensures |r| == |s|
    ensures forall i :: 0 <= i < |s| ==> r[i] == LowerChar(s[i])
  {
    seq(|s|, i requires 0 <= i < |s| => LowerChar(s[i]))
  }

  function UpperChar(c: char): char {
    if 'a' <= c <= 'z' then (c as int - 'a' as int + 'A' as int) as char else c
  }

  /** Python's `str.upper()`, restricted to the ASCII letters. */
  function Upper(s: string): (r: string)
    ensures |r| == |s|
    ensures forall i :: 0 <= i < |s| ==> r[i] == UpperChar(s[i])
  {
    seq(|s|, i requires 0 <= i < |s| => UpperChar(s[i]))
  }

  /** The number of trailing whitespace characters of s. */
  function TrailingSpaceRun(s: string): (n: nat)
    ensures n <= |s|
    ensures forall i :: |s| - n <= i < |s| ==> IsSpace(s[i])
    ensures n < |s| ==> !IsSpace(s[|s| - n - 1])
    decreases |s|
  {
    if |s| > 0 && IsSpace(s[|s| - 1]) then 1 + TrailingSpaceRun(s[..|s| - 1]) else 0
  }

  /** Python's `str.strip()` (ASCII whitespace): no leading or trailing
      whitespace is left, and the rest is a contiguous part of s. */
  function Strip(s: string): (r: string)
    ensures |r| <= |s|
    ensures |r| > 0 ==> !IsSpace(r[0]) && !IsSpace(r[|r| - 1])
    ensures exists i :: OccursAt(s, r, i)
  {
    var left := s[SpaceRun(s)..];
    var r := left[..|left| - TrailingSpaceRun(left)];
    assert OccursAt(s, r, SpaceRun(s));
    r
  }

  /** Python's `s.split(sep)` for a one-character separator. */
  function Split(s: string, sep: char): (parts: seq<string>)
    ensures |parts| >= 1
    ensures forall i :: 0 <= i < |parts| ==> sep !in parts[i]
    decreases |s|
  {
    if sep !in s then [s]
    else
      var k := FirstIndex(s, sep);
      [s[..k]] + Split(s[k + 1..], sep)
  }

  /** The position of the first occurrence of c in s. */
  function FirstIndex(s: string, c: char): (k: nat)
    requires c in s
    ensures k < |s| && s[k] == c && c !in s[..k]
    decreases |s|
  {
    if s[0] == c then 0 else 1 + FirstIndex(s[1..], c)
  }

  /** Joining the parts of a split with the separator gives back the string. */
  lemma {:induction false} SplitJoin(s: string, sep: char)
    ensures Join(Split(s, sep), [sep]) == s
    decreases |s|
  {
    if sep in s {
      var k := FirstIndex(s, sep);
      SplitJoin(s[k + 1..], sep);
      var rest := Split(s[k + 1..], sep);
      var parts := Split(s, sep);
      assert parts == [s[..k]] + rest;
      assert |parts| >= 2 && parts[0] == s[..k] && parts[1..] == rest;
      assert Join(parts, [sep]) == s[..k] + [sep] + Join(rest, [sep]);
      assert s == s[..k] + [sep] + s[k + 1..];
    }
  }

  /** Python's `s[:n]` for a non-negative n. */
  function Take<T>(s: seq<T>, n: nat): (r: seq<T>)
    ensures |r| == if n < |s| then n else |s|
    ensures r <= s
  {
    if n < |s| then s[..n] else s
  }

  lemma Assoc<T>(a: seq<T>, b: seq<T>, c: seq<T>)
    ensures a + b + c == a + (b + c)
  {
  }

  /** Taking from a sequence that starts with x. */
  lemma TakeCons<T>(x: T, s: seq<T>, n: nat)
    requires n >= 1
    ensures Take([x] + s, n) == [x] + Take(s, n - 1)
  {
  }

  /** How Python normalises a slice bound `i` for a sequence of length `len`. */
  function SliceBound(i: int, len: nat): (b: nat)
    ensures b <= len
    ensures 0 <= i <= len ==> b == i
  {
    if i < 0 then (if len + i < 0 then 0 else len + i) else if i > len then len else i
  }

  /** Python's `s[:k]`, any integer k. */
  function PyPrefix<T>(s: seq<T>, k: int): (r: seq<T>)
    ensures r <= s
    ensures k >= 0 ==> |r| == if k < |s| then k else |s|
  {
    s[..SliceBound(k, |s|)]
  }

  /** Python's `s[-k:]`, any integer k; note that `s[-0:]` is the whole of s. */
  function PySuffix<T>(s: seq<T>, k: int): seq<T> {
    s[SliceBound(-k, |s|)..]
  }

  lemma PySuffixShape<T>(s: seq<T>, k: int)
    ensures k == 0 ==> PySuffix(s, k) == s
    ensures k >= 1 ==> |PySuffix(s, k)| == (if k < |s| then k else |s|)
    ensures PySuffix(s, k) == s[|s| - |PySuffix(s, k)|..]
  {
  }

  /** `sep.join(parts)`. */
  function Join(parts: seq<string>, sep: string): string
    decreases |parts|
  {
    if |parts| == 0 then ""
    else if |parts| == 1 then parts[0]
    else parts[0] + sep + Join(parts[1..], sep)
  }

  predicate IsDigit(c: char) {
    '0' <= c <= '9'
  }

  function DigitChar(d: nat): char
    requires d < 10
  {
    ('0' as int + d) as char
  }

  /** `str(n)` for a natural number. */
  function NatToString(n: nat): (r: string)
    ensures |r| >= 1
    ensures forall i :: 0 <= i < |r| ==> IsDigit(r[i])
    decreases n
  {
    if n < 10 then [DigitChar(n)] else NatToString(n / 10) + [DigitChar(n % 10)]
  }

  /** `str(i)` for any integer. */
  function IntToString(i: int): string {
    if i < 0 then "-" + NatToString(-i) else NatToString(i)
  }

  /** `int(s)` for a string of decimal digits. */
  function DigitsValue(s: string): nat
    requires forall i :: 0 <= i < |s| ==> IsDigit(s[i])
    decreases |s|
  {
    if |s| == 0 then 0
    else DigitsValue(s[..|s| - 1]) * 10 + DigitVal(s[|s| - 1])
  }

  function DigitVal(c: char): nat
    requires IsDigit(c)
  {
    c as int - '0' as int
  }

  lemma {:induction false} DigitsOfNatToString(n: nat)
    ensures DigitsValue(NatToString(n)) == n
    decreases n
  {
    if n >= 10 {
      var r := NatToString(n);
      assert r[..|r| - 1] == NatToString(n / 10);
      DigitsOfNatToString(n / 10);
    }
  }

  /** Length of the longest run of digits at the start of s (the greedy `\d+`). */
  function DigitRun(s: string): (n: nat)
    ensures n <= |s|
    ensures forall i :: 0 <= i < n ==> IsDigit(s[i])
    ensures n < |s| ==> !IsDigit(s[n])
    decreases |s|
  {
    if |s| > 0 && IsDigit(s[0]) then 1 + DigitRun(s[1..]) else 0
  }

  /** ASCII whitespace, the model's `\s`. */
  predicate IsSpace(c: char) {
    c == ' ' || c == '\t' || c == '\n' || c == '\r' || c == '\U{0B}' || c == '\U{0C}'
  }

  function SpaceRun(s: string): (n: nat)
    ensures n <= |s|
    ensures forall i :: 0 <= i < n ==> IsSpace(s[i])
    ensures n < |s| ==> !IsSpace(s[n])
    decreases |s|
  {
    if |s| > 0 && IsSpace(s[0]) then 1 + SpaceRun(s[1..]) else 0
  }

  /** No element occurs twice. */
  predicate NoDup<T(==)>(s: seq<T>) {
    forall i, j :: 0 <= i < j < |s| ==> s[i] != s[j]
  }

  /** A duplicate-free list splits into a head that does not recur and a
      duplicate-free tail. */
  lemma NoDupTail<T>(s: seq<T>)
    requires NoDup(s) && |s| > 0
    ensures NoDup(s[1..]) && s[0] !in s[1..]
  {
    forall i, j | 0 <= i < j < |s[1..]| ensures s[1..][i] != s[1..][j] {
      assert s[1..][i] == s[i + 1] && s[1..][j] == s[j + 1];
    }
    forall k | 0 <= k < |s[1..]| ensures s[1..][k] != s[0] {
      assert s[1..][k] == s[k + 1];
    }
  }

  /** A new head keeps a list duplicate-free. */
  lemma NoDupCons<T>(x: T, s: seq<T>)
    requires NoDup(s) && x !in s
    ensures NoDup([x] + s)
  {
    var r := [x] + s;
    forall i, j | 0 <= i < j < |r| ensures r[i] != r[j] {
      assert r[j] == s[j - 1];
      if i > 0 {
        assert r[i] == s[i - 1];
      }
    }
  }

  /** A new last element keeps a list duplicate-free. */
  lemma NoDupSnoc<T>(xs: seq<T>, x: T)
    requires NoDup(xs) && x !in xs
    ensures NoDup(xs + [x])
  {
    var ys := xs + [x];
    forall i, j | 0 <= i < j < |ys| ensures ys[i] != ys[j] {
      if j == |xs| {
        assert ys[i] == xs[i] && xs[i] in xs;
      }
    }
  }

  /** `xs.remove(x)`: drop the first occurrence of x (no-op when absent). */
  function RemoveFirst<T(==)>(xs: seq<T>, x: T): (r: seq<T>)
    ensures x !in xs ==> r == xs
    ensures x in xs ==> |r| == |xs| - 1
    ensures multiset(r) == multiset(xs) - multiset{x}
    decreases |xs|
  {
    if |xs| == 0 then []
    else if xs[0] == x then (assert xs == [xs[0]] + xs[1..]; xs[1..])
    else (assert xs == [xs[0]] + xs[1..]; [xs[0]] + RemoveFirst(xs[1..], x))
  }

  /** Number of elements satisfying p. */
  function CountIf<T>(s: seq<T>, p: T -> bool): (n: nat)
    ensures n <= |s|
    decreases |s|
  {
    if |s| == 0 then 0 else (if p(s[|s| - 1]) then 1 else 0) + CountIf(s[..|s| - 1], p)
  }

  /** `[x for x in s if p(x)]`. */
  function Filter<T>(s: seq<T>, p: T -> bool): (r: seq<T>)
    ensures |r| <= |s|
    ensures forall x :: x in r ==> x in s && p(x)
    ensures forall x :: x in s && p(x) ==> x in r
    decreases |s|
  {
    if |s| == 0 then []
    else Filter(s[..|s| - 1], p) + (if p(s[|s| - 1]) then [s[|s| - 1]] else [])
  }

  /** Filtering a sequence with one more element at the end extends the
      filtered sequence by that element exactly when it passes. */
  lemma FilterSnoc<T>(s: seq<T>, x: T, p: T -> bool)
    ensures Filter(s + [x], p) == Filter(s, p) + (if p(x) then [x] else [])
  {
    assert (s + [x])[..|s|] == s;
  }

  /** Filtering a prefix gives a prefix of the filtered sequence. */
  lemma {:induction false} FilterPrefix<T>(s: seq<T>, n: nat, p: T -> bool)
    requires n <= |s|
    ensures Filter(s[..n], p) <= Filter(s, p)
    decreases |s| - n
  {
    if n < |s| {
      var init := s[..|s| - 1];
      assert init[..n] == s[..n];
      FilterPrefix(init, n, p);
    } else {
      assert s[..n] == s;
    }
  }

  /** `[f(x) for x in s]`. */
  function MapSeq<A, B>(s: seq<A>, f: A -> B): (r: seq<B>)
    ensures |r| == |s| && forall i :: 0 <= i < |s| ==> r[i] == f(s[i])
  {
    seq(|s|, i requires 0 <= i < |s| => f(s[i]))
  }

  lemma {:induction false} FilterCount<T>(s: seq<T>, p: T -> bool)
    ensures |Filter(s, p)| == CountIf(s, p)
    decreases |s|
  {
    if |s| > 0 {
      FilterCount(s[..|s| - 1], p);
    }
  }
}
