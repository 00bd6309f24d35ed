// The FreeBSD branch of get_tty_path (common/terminal.c): tty numbers in base 32, written into a
// buffer of 16 characters.
module TtyPath {
  import opened Options

  const TTYPATHLEN: int := 16
  const BASE: int := 32
  const PREFIX: string := "/dev/ttyv"
  const FIRST: int := 9

  // The number in the name is one less than the number of the VT; 0 stands for the first one.
  function Unit(tty: nat): nat {
    if tty > 0 then tty - 1 else 0
  }

  function DigitChar(d: int): char
    requires 0 <= d < BASE
  {
    if d >= 10 then 'a' + (d - 10) as char else '0' + d as char
  }

  function DigitValue(c: char): int {
    if '0' <= c <= '9' then c as int - '0' as int
    else if 'a' <= c <= 'v' then c as int - 'a' as int + 10
    else -1
  }

  // The number a string of digits denotes.
  function Value(s: string): int {
    if s == [] then 0 else BASE * Value(s[..|s| - 1]) + DigitValue(s[|s| - 1])
  }

  // The digits of a number, lowest first.
  function Low(n: nat): string {
    if n == 0 then [] else [DigitChar(n % BASE)] + Low(n / BASE)
  }

  function Reversed(s: string): (r: string)
    ensures |r| == |s| && forall i :: 0 <= i < |r| ==> r[i] == s[|s| - 1 - i]
  {
    seq(|s|, i requires 0 <= i < |s| => s[|s| - 1 - i])
  }

  function Digits(n: nat): string {
    if n == 0 then "0" else Reversed(Low(n))
  }

  lemma DigitRoundTrip(d: int)
    requires 0 <= d < BASE
    ensures DigitValue(DigitChar(d)) == d && DigitChar(d) != '\0'
  {
  }

  lemma ReversedCons(c: char, s: string)
    ensures Reversed([c] + s) == Reversed(s) + [c]
  {
  }

  lemma {:induction false} LowValue(n: nat)
    ensures Value(Reversed(Low(n))) == n
  {
    if n > 0 {
      LowValue(n / BASE);
      DigitRoundTrip(n % BASE);
      ReversedCons(DigitChar(n % BASE), Low(n / BASE));
      var r := Reversed(Low(n / BASE));
      assert (r + [DigitChar(n % BASE)])[..|r|] == r;
    }
  }

  // Reading the digits gives the number back.
  lemma DigitsValue(n: nat)
    ensures Value(Digits(n)) == n
  {
    if n == 0 { assert Value("0"[..0]) == 0; } else { LowValue(n); }
  }

  function Pow(k: nat): nat {
    if k == 0 then 1 else BASE * Pow(k - 1)
  }

  lemma {:induction false} LengthOf(n: nat, k: nat)
    ensures |Low(n)| <= k <==> n < Pow(k)
    decreases k
  {
    if n > 0 && k > 0 { LengthOf(n / BASE, k - 1); }
    if k == 0 { } else if n == 0 { PowPositive(k); }
  }

  lemma PowPositive(k: nat)
    ensures Pow(k) > 0
  {
  }

  // The digit loop: lowest digit first, as long as there is room for it and the final NUL.
  method PutDigits(unit: nat, path: array<char>) returns (ok: bool, offset: nat)
    requires path.Length == TTYPATHLEN && unit > 0
    modifies path
    ensures path[..FIRST] == old(path[..FIRST])
    ensures ok <==> |Low(unit)| <= TTYPATHLEN - 1 - FIRST
    ensures ok ==> offset == FIRST + |Low(unit)| && path[FIRST..offset] == Low(unit)
  {
    offset := FIRST;
    var remaining: nat := unit;
    ghost var put := [];
    while remaining > 0
      invariant FIRST <= offset < TTYPATHLEN && path[..FIRST] == old(path[..FIRST])
      invariant path[FIRST..offset] == put && put + Low(remaining) == Low(unit)
    {
      if offset + 1 >= TTYPATHLEN { return false, offset; }
      var c := DigitChar(remaining % BASE);
      Associative(put, [c], Low(remaining / BASE));
      path[offset] := c;
      remaining, offset, put := remaining / BASE, offset + 1, put + [c];
    }
    assert put + [] == put;
    return true, offset;
  }

  // The loop that reverses them in place.
  method Reverse(path: array<char>, offset: nat)
    requires path.Length == TTYPATHLEN && FIRST <= offset < TTYPATHLEN
    modifies path
    ensures path[..FIRST] == old(path[..FIRST]) && path[FIRST..offset] == Reversed(old(path[FIRST..offset]))
  {
    var n := offset - FIRST;
    ghost var was := path[..];
    var i := 0;
    while i < n / 2
      invariant 0 <= i <= n / 2 && path[..FIRST] == was[..FIRST]
      invariant forall k :: FIRST <= k < FIRST + i ==> path[k] == was[FIRST + offset - 1 - k]
      invariant forall k :: offset - i <= k < offset ==> path[k] == was[FIRST + offset - 1 - k]
      invariant forall k :: FIRST + i <= k < offset - i ==> path[k] == was[k]
    {
      var p, q := FIRST + i, offset - 1 - i;
      assert p < q && q == FIRST + offset - 1 - p && path[p] == was[p] && path[q] == was[q];
      var tmp := path[p];
      path[p] := path[q];
      path[q] := tmp;
      i := i + 1;
    }
  }

  // strcpy
  method Copy(s: string, path: array<char>)
    requires |s| < path.Length
    modifies path
    ensures path[..|s|] == s && path[|s|] == '\0'
  {
    for k := 0 to |s|
      invariant path[..k] == s[..k]
    {
      path[k] := s[k];
    }
    path[|s|] := '\0';
  }

  // Everything behind the prefix.
  method PutNumber(unit: nat, path: array<char>) returns (ok: bool)
    requires path.Length == TTYPATHLEN
    modifies path
    ensures path[..FIRST] == old(path[..FIRST]) && (ok <==> |Digits(unit)| <= 6)
    ensures ok ==> var end := FIRST + |Digits(unit)|; path[FIRST..end] == Digits(unit) && path[end] == '\0'
  {
    if unit == 0 {
      path[FIRST], path[FIRST + 1] := '0', '\0';
      return true;
    }
    var offset;
    ok, offset := PutDigits(unit, path);
    if !ok { return; }
    Reverse(path, offset);
    path[offset] := '\0';
  }

  lemma DigitsLength(n: nat)
    ensures |Digits(n)| <= 6 <==> n < 0x4000_0000
  {
    LengthOf(n, 6);
    assert Pow(6) == 0x4000_0000;
  }

  lemma Joined(s: string, k: nat, end: nat)
    requires k <= end <= |s|
    ensures s[..k] + s[k..end] == s[..end]
  {
  }

  // The path of the device behind a VT.
  function Name(tty: nat): (s: string)
    ensures |s| == FIRST + |Digits(Unit(tty))|
  {
    PREFIX + Digits(Unit(tty))
  }

  // Different VTs have different paths.
  lemma PathsDiffer(a: nat, b: nat)
    requires a >= 1 && b >= 1 && a != b
    ensures Name(a) != Name(b)
  {
    DigitsValue(Unit(a));
    DigitsValue(Unit(b));
    assert Name(a)[FIRST..] == Digits(Unit(a)) && Name(b)[FIRST..] == Digits(Unit(b));
  }

  // The buffer holds the prefix, these digits and a NUL.
  predicate Holds(s: string, prefix: string, digits: string) {
    var k, end := |prefix|, |prefix| + |digits|;
    end < |s| && s[..k] == prefix && s[k..end] == digits && s[end] == '\0'
  }

  lemma HoldsName(s: string, tty: nat)
    requires Holds(s, PREFIX, Digits(Unit(tty)))
    ensures s[..|Name(tty)|] == Name(tty)
  {
    Joined(s, FIRST, |Name(tty)|);
  }

  method PutPath(prefix: string, tty: nat, path: array<char>) returns (ok: bool)
    requires path.Length == TTYPATHLEN && |prefix| == FIRST
    modifies path
    ensures ok <==> Unit(tty) < 0x4000_0000
    ensures ok ==> Holds(path[..], prefix, Digits(Unit(tty)))
  {
    Copy(prefix, path);
    ok := PutUnit(prefix, Unit(tty), path);
  }

  method PutUnit(prefix: string, unit: nat, path: array<char>) returns (ok: bool)
    requires path.Length == TTYPATHLEN && |prefix| == FIRST && path[..FIRST] == prefix
    modifies path
    ensures ok <==> unit < 0x4000_0000
    ensures ok ==> Holds(path[..], prefix, Digits(unit))
  {
    DigitsLength(unit);
    ok := PutNumber(unit, path);
    ghost var s, end := path[..], FIRST + |Digits(unit)|;
    assert s[..FIRST] == path[..FIRST];
    assert ok ==> s[FIRST..end] == path[FIRST..end];
  }

  // get_tty_path: it fails exactly if the number has more than six digits.
  method GetTtyPath(tty: nat, path: array<char>) returns (ok: bool)
    requires path.Length == TTYPATHLEN
    modifies path
    ensures ok <==> Unit(tty) < 0x4000_0000
    ensures ok ==> Holds(path[..], PREFIX, Digits(Unit(tty))) && path[..][..|Name(tty)|] == Name(tty)
  {
    ok := PutPath(PREFIX, tty, path);
    if ok { HoldsName(path[..], tty); }
  }
}
