// The strdup/strndup replacements of the utility header. A C string is an
// array of characters holding a terminating NUL; a null pointer is `null`;
// whether malloc succeeds is a parameter, `allocOk`.

module StringUtils {

  /** The array holds a terminator: the input strlen and the copies
    * require. */
  predicate Terminated(s: seq<char>)
  {
    '\0' in s
  }

  /** The position of the first NUL: what strlen returns. */
  function NulIndex(s: seq<char>): (n: nat)
    requires Terminated(s)
    ensures n < |s| && s[n] == '\0'
    ensures forall i :: 0 <= i < n ==> s[i] != '\0'
  {
    if s[0] == '\0' then 0 else 1 + NulIndex(s[1..])
  }

  /** The string a C string holds: the characters before its terminator. */
  function Content(s: seq<char>): (c: seq<char>)
    requires Terminated(s)
    ensures |c| == NulIndex(s) && c == s[..|c|] && '\0' !in c
  {
    var c := s[..NulIndex(s)];
    assert forall i :: 0 <= i < |c| ==> c[i] == s[i];
    c
  }

  /** A text without NUL followed by a NUL is a C string holding exactly
    * that text. */
  lemma {:induction false} ContentOfTerminated(c: seq<char>)
    requires '\0' !in c
    ensures Terminated(c + ['\0'])
    ensures NulIndex(c + ['\0']) == |c| && Content(c + ['\0']) == c
  {
    var s := c + ['\0'];
    assert s[|c|] == '\0';
    forall i | 0 <= i < |c|
      ensures s[i] != '\0'
    {
      assert s[i] == c[i] && c[i] in c;
    }
    assert s[..|c|] == c;
  }

  /** strlen over the array: counts the characters before the first NUL. */
  method Strlen(str: array<char>) returns (n: nat)
    requires Terminated(str[..])
    ensures n == NulIndex(str[..])
  {
    n := 0;
    ghost var len := NulIndex(str[..]);
    while str[n] != '\0'
      invariant n <= len
      invariant forall i :: 0 <= i < n ==> str[i] != '\0'
      decreases len - n
    {
      n := n + 1;
    }
  }

  /** memcpy: the first `count` characters of `src` into `dst`; the rest
    * of `dst` stays as it was. */
  method MemCopy(dst: array<char>, src: array<char>, count: nat)
    requires count <= dst.Length && count <= src.Length && dst != src
    modifies dst
    ensures dst[..count] == src[..count]
    ensures dst[count..] == old(dst[count..])
  {
    for i := 0 to count
      invariant dst[..i] == src[..i]
      invariant dst[count..] == old(dst[count..])
    {
      dst[i] := src[i];
    }
  }

  /** custom_strdup: NULL for NULL and when the allocation fails; otherwise
    * a fresh copy of the string and its terminator. */
  method CustomStrdup(str: array?<char>, allocOk: bool) returns (r: array?<char>)
    requires str != null ==> Terminated(str[..])
    ensures str == null || !allocOk ==> r == null
    ensures str != null && allocOk ==>
      && r != null && fresh(r)
      && r[..] == str[..NulIndex(str[..]) + 1]
      && Terminated(r[..]) && Content(r[..]) == Content(str[..])
  {
    if str == null {
      return null;
    }
    var n := Strlen(str);
    var len := n + 1;
    if !allocOk {
      return null;
    }
    r := new char[len];
    MemCopy(r, str, len);
    assert r[..] == r[..len];
    assert r[..] == Content(str[..]) + ['\0'];
    ContentOfTerminated(Content(str[..]));
  }

  /** The length custom_strndup copies: strlen capped at `n`. */
  function CappedLength(s: seq<char>, n: nat): (len: nat)
    requires Terminated(s)
    ensures len <= n && len <= NulIndex(s)
    ensures len == n || len == NulIndex(s)
  {
    if NulIndex(s) > n then n else NulIndex(s)
  }

  /** custom_strndup: NULL for NULL and when the allocation fails;
    * otherwise a fresh C string holding the first min(strlen, n)
    * characters of the input. */
  method CustomStrndup(str: array?<char>, n: nat, allocOk: bool) returns (r: array?<char>)
    requires str != null ==> Terminated(str[..])
    ensures str == null || !allocOk ==> r == null
    ensures str != null && allocOk ==>
      && r != null && fresh(r)
      && r.Length == CappedLength(str[..], n) + 1
      && Terminated(r[..])
      && Content(r[..]) == Content(str[..])[..CappedLength(str[..], n)]
      && |Content(r[..])| <= n && Content(r[..]) <= Content(str[..])
      && (NulIndex(str[..]) <= n ==> Content(r[..]) == Content(str[..]))
  {
    if str == null {
      return null;
    }
    var len := Strlen(str);
    if len > n {
      len := n;
    }
    if !allocOk {
      return null;
    }
    r := new char[len + 1];
    MemCopy(r, str, len);
    r[len] := '\0';
    var prefix := Content(str[..])[..len];
    assert r[..] == prefix + ['\0'];
    ContentOfTerminated(prefix);
  }
}
