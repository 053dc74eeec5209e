/** Character classes, substring tests, decimal rendering and path joining, as Python provides them. */
module Text {

  /**
   * Python's `str.isspace()`: the characters that a `\s` of a `str` pattern matches and that `str.strip()`
   * removes (tab to carriage return, the four information separators, space, NEL, no-break space and the
   * Unicode space separators, line and paragraph separators).
   */
  predicate IsSpace(c: char) {
    ('\t' <= c <= '\r') || ('\U{1C}' <= c <= '\U{1F}') || c == ' ' || c == '\U{85}' || c == '\U{A0}'
    || c == '\U{1680}' || ('\U{2000}' <= c <= '\U{200A}') || c == '\U{2028}' || c == '\U{2029}'
    || c == '\U{202F}' || c == '\U{205F}' || c == '\U{3000}'
  }

  /** Python's `p in s` on strings: `p` occurs somewhere in `s`. */
  predicate Contains(s: string, p: string)
    decreases |s|
  {
    p <= s || (|s| > 0 && Contains(s[1..], p))
  }

  /** Whatever comes before it, a string occurs inside its own extension. */
  lemma {:induction false} ContainsAtEnd(a: string, p: string)
    ensures Contains(a + p, p)
    decreases |a|
  {
    if |a| == 0 {
      assert a + p == p;
    } else {
      assert (a + p)[1..] == a[1..] + p;
      ContainsAtEnd(a[1..], p);
    }
  }

  /** An occurrence inside `s` is still an occurrence once something is put in front of `s` or after it. */
  lemma {:induction false} ContainsWithin(a: string, s: string, b: string, p: string)
    requires Contains(s, p)
    ensures Contains(a + s + b, p)
    decreases |a|, |s|
  {
    if |a| > 0 {
      assert (a + s + b)[1..] == a[1..] + s + b;
      ContainsWithin(a[1..], s, b, p);
    } else if p <= s {
      assert a + s + b == s + b;
      assert (s + b)[..|p|] == s[..|p|];
    } else {
      assert |s| > 0 && Contains(s[1..], p);
      assert (a + s + b)[1..] == s[1..] + b;
      ContainsWithin([], s[1..], b, p);
      assert [] + s[1..] + b == s[1..] + b;
    }
  }

  /** Concatenation regroups freely. */
  lemma AppendAssoc<T>(a: seq<T>, b: seq<T>, c: seq<T>)
    ensures a + b + c == a + (b + c)
  {
  }

  /** Dropping a prefix of `a` from `a + b` leaves the rest of `a` followed by `b`. */
  lemma DropAppend<T>(a: seq<T>, b: seq<T>, n: nat)
    requires n <= |a|
    ensures (a + b)[n..] == a[n..] + b
  {
  }

  function DigitChar(d: nat): (c: char)
    requires d < 10
    ensures '0' <= c <= '9' && c as int - '0' as int == d
  {
    ['0', '1', '2', '3', '4', '5', '6', '7', '8', '9'][d]
  }

  predicate IsDigits(s: string) {
    forall i :: 0 <= i < |s| ==> '0' <= s[i] <= '9'
  }

  /** The number a string of decimal digits denotes, most significant digit first. */
  function DigitsValue(s: string): nat
    requires IsDigits(s)
  {
    if s == [] then 0 else 10 * DigitsValue(s[..|s| - 1]) + (s[|s| - 1] as int - '0' as int)
  }

  /** Python's `str(n)` for a non-negative integer: its decimal digits, most significant first. */
  function Decimal(n: nat): (r: string)
    ensures |r| > 0 && IsDigits(r)
    ensures DigitsValue(r) == n
    ensures |r| > 1 ==> r[0] != '0'
  {
    if n < 10 then [DigitChar(n)]
    else
      var r := Decimal(n / 10) + [DigitChar(n % 10)];
      assert r[..|r| - 1] == Decimal(n / 10);
      r
  }

  /** Python's `s[:n]` for `n >= 0`. */
  function Take(s: string, n: nat): (r: string)
    ensures |r| == if |s| < n then |s| else n
    ensures r <= s
  {
    if |s| < n then s else s[..n]
  }

  /** `posixpath.join(dir, name)` for two components. */
  function Join(dir: string, name: string): (r: string)
    ensures |name| > 0 && name[0] == '/' ==> r == name
    ensures (|name| == 0 || name[0] != '/') ==> dir <= r && |dir| + |name| <= |r| && r[|r| - |name|..] == name
    ensures (|name| == 0 || name[0] != '/') && (dir == [] || dir[|dir| - 1] == '/') ==> |r| == |dir| + |name|
    ensures (|name| == 0 || name[0] != '/') && dir != [] && dir[|dir| - 1] != '/' ==>
      |r| == |dir| + 1 + |name| && r[|dir|] == '/'
  {
    if |name| > 0 && name[0] == '/' then name
    else if dir == [] || dir[|dir| - 1] == '/' then dir + name
    else dir + "/" + name
  }

  /** Python's `s.rfind(c)`: the index of the last occurrence of `c` in `s`, or -1 when there is none. */
  function RFind(s: string, c: char): (r: int)
    ensures -1 <= r < |s|
    ensures r >= 0 ==> s[r] == c
    ensures forall j :: r < j < |s| ==> s[j] != c
  {
    if s == [] then -1
    else if s[|s| - 1] == c then |s| - 1
    else RFind(s[..|s| - 1], c)
  }

  /** The last occurrence is the one with no occurrence after it. */
  lemma RFindAt(s: string, c: char, i: int)
    requires 0 <= i < |s| && s[i] == c && forall j :: i < j < |s| ==> s[j] != c
    ensures RFind(s, c) == i
  {
  }

  /** `posixpath.basename(p)`: what follows the last slash. */
  function Basename(p: string): (r: string)
    ensures |r| <= |p| && r == p[|p| - |r|..]
    ensures '/' !in r
    ensures |r| < |p| ==> p[|p| - |r| - 1] == '/'
  {
    p[RFind(p, '/') + 1..]
  }

  /** The `({k+1}/{total}): ` counter both shells put in front of an item's title. */
  function Counter(k: nat, total: nat): string {
    "(" + Decimal(k + 1) + "/" + Decimal(total) + "): "
  }

  /** The status line both shells show when item `k` of `total` starts: the counter and the title cut to 50. */
  function StartStatus(k: nat, total: nat, title: string): string {
    "جاري تحميل " + Counter(k, total) + Take(title, 50) + "..."
  }
}
