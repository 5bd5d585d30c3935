/** The three Arduino `String` operations the forecast fetch uses on the
    time strings: `substring`, `toInt` (the C library's `atol`) and
    `toCharArray` into a fixed-size NUL-terminated buffer. */
module Arduino {
  import opened CNumerics

  /** `String::substring(left, right)`: the bounds are swapped when
      `left > right`, an empty string comes back when `left` is at or past
      the end, and `right` is clipped to the length. Inside the string it
      is exactly the characters `left .. right-1`. */
  function Substring(s: string, left: nat, right: nat): (r: string)
    ensures |r| <= |s|
    ensures left <= right <= |s| ==> r == s[left..right]
    ensures Min(left, right) >= |s| ==> r == []
    ensures Min(left, right) < |s| <= Max(left, right) ==> r == s[Min(left, right)..]
  {
    var lo, hi := if left > right then right else left, if left > right then left else right;
    if lo >= |s| then "" else s[lo..if hi > |s| then |s| else hi]
  }

  /** The order of the two bounds does not matter. */
  lemma SubstringSwap(s: string, left: nat, right: nat)
    ensures Substring(s, left, right) == Substring(s, right, left)
  {
  }

  predicate IsSpace(c: char)
  {
    c == ' ' || c == '\t' || c == '\n' || c == '\r' || c == '\U{0B}' || c == '\U{0C}'
  }

  predicate IsDigit(c: char) { '0' <= c <= '9' }

  function DigitValue(c: char): int
    requires IsDigit(c)
  {
    c as int - '0' as int
  }

  /** The index of the first character at or after `i` that is not white
      space. */
  function SkipSpaces(s: string, i: nat): (j: nat)
    requires i <= |s|
    ensures i <= j <= |s|
    ensures forall k :: i <= k < j ==> IsSpace(s[k])
    ensures j < |s| ==> !IsSpace(s[j])
    decreases |s| - i
  {
    if i < |s| && IsSpace(s[i]) then SkipSpaces(s, i + 1) else i
  }

  /** The value of the run of digits that starts at `i`, read left to
      right as `atol` does, accumulated onto `acc`. */
  function Digits(s: string, i: nat, acc: int): int
    requires i <= |s|
    decreases |s| - i
  {
    if i < |s| && IsDigit(s[i]) then Digits(s, i + 1, 10 * acc + DigitValue(s[i])) else acc
  }

  /** `String::toInt()`: leading white space is skipped, one optional sign
      is read, then as many decimal digits as follow; no digits give 0. */
  function ToInt(s: string): int
  {
    var i := SkipSpaces(s, 0);
    if i < |s| && s[i] == '-' then -Digits(s, i + 1, 0)
    else if i < |s| && s[i] == '+' then Digits(s, i + 1, 0)
    else Digits(s, i, 0)
  }

  /** Two digits read as a two-digit decimal number, `00 .. 99`. */
  lemma ToIntTwoDigits(a: char, b: char)
    requires IsDigit(a) && IsDigit(b)
    ensures ToInt([a, b]) == 10 * DigitValue(a) + DigitValue(b)
    ensures 0 <= ToInt([a, b]) <= 99
  {
    var s := [a, b];
    assert SkipSpaces(s, 0) == 0;
    assert Digits(s, 0, 0) == Digits(s, 1, DigitValue(a));
    assert Digits(s, 1, DigitValue(a)) == Digits(s, 2, 10 * DigitValue(a) + DigitValue(b));
  }

  /** The hour of an ISO 8601 time string such as `2025-06-01T14:00`: the
      two characters at 11 and 12 read as a number. */
  lemma HourOfTimestamp(t: string)
    requires |t| >= 13 && IsDigit(t[11]) && IsDigit(t[12])
    ensures ToInt(Substring(t, 11, 13)) == 10 * DigitValue(t[11]) + DigitValue(t[12])
  {
    assert Substring(t, 11, 13) == [t[11], t[12]];
    ToIntTwoDigits(t[11], t[12]);
  }

  /** A concrete time string from the forecast feed. */
  lemma HourExample()
    ensures ToInt(Substring("2025-06-01T14:00", 11, 13)) == 14
  {
    HourOfTimestamp("2025-06-01T14:00");
  }

  // ---------------------------------------------------------------- C buffers

  /** The characters of a NUL-terminated buffer up to its first NUL (all
      of it if there is none). */
  function CString(buf: seq<char>): (r: string)
    ensures |r| <= |buf|
    ensures forall k :: 0 <= k < |r| ==> r[k] == buf[k] && r[k] != '\0'
    ensures |r| < |buf| ==> buf[|r|] == '\0'
  {
    if buf == [] || buf[0] == '\0' then [] else [buf[0]] + CString(buf[1..])
  }

  /** The buffer `buf` after `String::toCharArray(buf, |buf|)` copied `s`
      into it: at most `|buf| - 1` characters, then a NUL, then the old
      contents. */
  function Terminated(buf: seq<char>, s: string): (r: seq<char>)
    requires |buf| >= 1
    ensures |r| == |buf|
  {
    var n := Min(|buf| - 1, |s|);
    s[..n] + ['\0'] + buf[n + 1..]
  }

  /** `String::toCharArray(buf, buf.Length)`, the copy loop written out. */
  method ToCharArray(s: string, buf: array<char>)
    requires buf.Length >= 1
    modifies buf
    ensures buf[..] == Terminated(old(buf[..]), s)
  {
    var n := buf.Length - 1;
    if n > |s| { n := |s|; }
    var i := 0;
    while i < n
      invariant 0 <= i <= n
      invariant forall k :: 0 <= k < i ==> buf[k] == s[k]
      invariant forall k :: i <= k < buf.Length ==> buf[k] == old(buf[k])
    {
      buf[i] := s[i];
      i := i + 1;
    }
    buf[n] := '\0';
  }

  /** A buffer whose first NUL is at `m` reads back as its first `m`
      characters. */
  lemma {:induction false} CStringUpTo(t: seq<char>, m: nat)
    requires m < |t| && t[m] == '\0' && forall k :: 0 <= k < m ==> t[k] != '\0'
    ensures CString(t) == t[..m]
  {
    if m > 0 {
      CStringUpTo(t[1..], m - 1);
      assert t[..m] == [t[0]] + t[1..][..m - 1];
    }
  }

  /** Reading the buffer back as a C string gives the copied prefix, when
      the string holds no NUL: the first `|buf| - 1` characters survive
      and nothing of the old contents shows. */
  lemma CStringOfCopy(s: string, buf: seq<char>)
    requires |buf| >= 1 && forall k :: 0 <= k < |s| ==> s[k] != '\0'
    ensures CString(Terminated(buf, s)) == s[..Min(|buf| - 1, |s|)]
  {
    var n := Min(|buf| - 1, |s|);
    var t := Terminated(buf, s);
    assert t[..n] == s[..n];
    CStringUpTo(t, n);
  }
}
