/** The C string conventions the renderer relies on: a `char *` string is the
    characters before its terminating NUL, and the libc routines that the
    program applies to its fixed-size buffers (strlen, strncat, strncpy). */
module CStrings {

  /** The content of a C string: never holds the NUL that terminates it. */
  type CString = s: string | '\0' !in s

  function Min(a: nat, b: nat): nat { if a <= b then a else b }

  /** The first n characters of s, or all of s when it is shorter. */
  function Take(s: string, n: nat): (r: string)
    ensures |r| == Min(n, |s|) && r <= s
  {
    if |s| <= n then s else s[..n]
  }

  /** What C code reads through a `char *` to the characters s: everything
      before the first NUL. */
  function CStr(s: string): (r: CString)
    ensures r <= s
    ensures |r| < |s| ==> s[|r|] == '\0'
    ensures '\0' !in s ==> r == s
  {
    if s == [] || s[0] == '\0' then "" else [s[0]] + CStr(s[1..])
  }

  /** The buffer a holds a NUL-terminated string of length len, that is,
      strlen(a) == len. */
  ghost predicate HoldsString(a: array<char>, len: nat)
    reads a
  {
    len < a.Length && a[len] == '\0' && forall k :: 0 <= k < len ==> a[k] != '\0'
  }

  /** strlen: scans for the first NUL. */
  method StrLen(a: array<char>) returns (len: nat)
    requires '\0' in a[..]
    ensures HoldsString(a, len)
  {
    len := 0;
    while a[len] != '\0'
      invariant len < a.Length
      invariant forall k :: 0 <= k < len ==> a[k] != '\0'
      invariant '\0' in a[len..]
      decreases a.Length - len
    {
      assert a[len..] == [a[len]] + a[len + 1..];
      len := len + 1;
    }
  }

  /** strncat(dest, src, n): appends at most n characters of src after the
      string already in dest and terminates the result. */
  method StrNCat(dest: array<char>, src: CString, n: nat, ghost destLen: nat)
    requires HoldsString(dest, destLen)
    requires destLen + Min(n, |src|) < dest.Length
    modifies dest
    ensures HoldsString(dest, destLen + Min(n, |src|))
    ensures dest[..destLen + Min(n, |src|)] == old(dest[..destLen]) + Take(src, n)
  {
    assert dest[..destLen] == dest[..][..destLen];
    var d := StrLen(dest);
    var i := 0;
    while i < n && i < |src|
      invariant 0 <= i <= Min(n, |src|)
      invariant dest[..d + i] == old(dest[..d]) + src[..i]
    {
      dest[d + i] := src[i];
      i := i + 1;
    }
    dest[d + i] := '\0';
    assert dest[..d + i] == old(dest[..d]) + src[..i];
  }

  /** strncpy(dest, src, n): copies at most n characters of src and fills the
      rest of the first n positions with NULs. */
  method StrNCpy(dest: array<char>, src: CString, n: nat)
    requires n <= dest.Length
    modifies dest
    ensures forall k :: 0 <= k < n ==> dest[k] == if k < |src| then src[k] else '\0'
    ensures forall k :: n <= k < dest.Length ==> dest[k] == old(dest[k])
  {
    for i := 0 to n
      invariant forall k :: 0 <= k < i ==> dest[k] == if k < |src| then src[k] else '\0'
      invariant forall k :: i <= k < dest.Length ==> dest[k] == old(dest[k])
    {
      dest[i] := if i < |src| then src[i] else '\0';
    }
  }
}
