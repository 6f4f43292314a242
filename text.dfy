/** The C string operations the dashboard relies on, over `seq<char>`:
    printf's precision rule, snprintf's truncation to a buffer, strchr,
    strstr, strncmp on a prefix, and "%d" formatting. */
module Text {
  import opened Wrappers

  /** printf's "%.*s": a negative precision counts as absent and prints
      the whole string; otherwise at most `p` characters are printed. */
  function PrintfPrecision(s: string, p: int): (r: string)
    ensures p < 0 ==> r == s
    ensures p >= 0 ==> |r| == if p < |s| then p else |s|
    ensures r <= s
  {
    if p < 0 || p >= |s| then s else s[..p]
  }

  /** snprintf into a buffer of `size` keeps at most size-1 characters (bytes in C; the two agree on ASCII). */
  function Cap(s: string, size: nat): (r: string)
    requires size >= 1
    ensures r <= s
    ensures |r| == if |s| < size then |s| else size - 1
  {
    if |s| < size then s else s[..size - 1]
  }

  /** strchr: the index of the first occurrence of `c`, if any. */
  function IndexOf(s: string, c: char): (r: Option<nat>)
    ensures r.None? <==> c !in s
    ensures r.Some? ==> r.value < |s| && s[r.value] == c && c !in s[..r.value]
  {
    if |s| == 0 then None
    else if s[0] == c then Some(0)
    else match IndexOf(s[1..], c)
      case None => None
      case Some(i) => assert s[1..][..i] == s[1..i + 1]; Some(i + 1)
  }

  /** strstr(s, sub) != NULL. */
  predicate Contains(s: string, sub: string)
    decreases |s|
  {
    sub <= s || (|s| > 0 && Contains(s[1..], sub))
  }

  /** strncmp(s, prefix, |prefix|) == 0. */
  predicate StartsWith(s: string, prefix: string) {
    prefix <= s
  }

  /** printf's "%.Nf" with N digits after the point. Float formatting is
      not modelled: it is a parameter wherever the dashboard formats a value. */
  type Fixed = (real, nat) -> string

  /** The decimal digit character of 0 <= d < 10. */
  function Digit(d: int): char
    requires 0 <= d < 10
  {
    "0123456789"[d]
  }

  function NatToString(n: nat): (r: string)
    ensures |r| >= 1
    ensures forall i :: 0 <= i < |r| ==> '0' <= r[i] <= '9'
    decreases n
  {
    if n < 10 then [Digit(n)] else NatToString(n / 10) + [Digit(n % 10)]
  }

  /** printf "%d". */
  function IntToString(n: int): (r: string)
    ensures |r| >= 1
    ensures n < 0 <==> r[0] == '-'
  {
    if n < 0 then "-" + NatToString(-n) else NatToString(n)
  }

  /** C tolower on one ASCII character. */
  function ToLower(c: char): (r: char)
    ensures 'A' <= c <= 'Z' ==> 'a' <= r <= 'z'
    ensures !('A' <= c <= 'Z') ==> r == c
  {
    if 'A' <= c <= 'Z' then (c as int + 32) as char else c
  }

  /** Equality up to ASCII case, as cJSON compares object keys. */
  predicate EqualIgnoringCase(a: string, b: string) {
    |a| == |b| && forall i :: 0 <= i < |a| ==> ToLower(a[i]) == ToLower(b[i])
  }
}
