/**
 * `sanitize_filename` (downtube.py, and a textually identical copy in streamlit_downloader.py):
 * forbidden characters become `_`, every run of whitespace becomes one space, the ends are stripped,
 * and a result longer than 150 characters is cut to 147 characters followed by "...".
 */
module Filename {
  import opened Text

  const MaxLength := 150
  const KeptLength := 147
  const Ellipsis := "..."

  /** The nine characters backslash, slash, star, question mark, colon, double quote, `<`, `>` and `|`. */
  predicate IsForbidden(c: char) {
    c in "\\/*?:\"<>|"
  }

  predicate NoForbidden(s: string) {
    forall i :: 0 <= i < |s| ==> !IsForbidden(s[i])
  }

  /** The only whitespace character left is the plain space. */
  predicate SpacesAreBlanks(s: string) {
    forall i :: 0 <= i < |s| && IsSpace(s[i]) ==> s[i] == ' '
  }

  predicate NoAdjacentSpaces(s: string) {
    forall i :: 0 < i < |s| && IsSpace(s[i]) ==> !IsSpace(s[i - 1])
  }

  /** No leading or trailing whitespace. */
  predicate Trimmed(s: string) {
    |s| > 0 ==> !IsSpace(s[0]) && !IsSpace(s[|s| - 1])
  }

  /** What a sanitised name looks like. */
  predicate Clean(s: string) {
    NoForbidden(s) && SpacesAreBlanks(s) && NoAdjacentSpaces(s) && Trimmed(s) && |s| <= MaxLength
  }

  /** The non-whitespace characters of `s`, in order. */
  function NonSpaces(s: string): string {
    if s == [] then [] else (if IsSpace(s[0]) then [] else [s[0]]) + NonSpaces(s[1..])
  }

  /** The first substitution of `sanitize_filename`: each forbidden character becomes `_`. */
  function ReplaceForbidden(s: string): (r: string)
    ensures |r| == |s| && NoForbidden(r)
    ensures forall i :: 0 <= i < |s| && !IsForbidden(s[i]) ==> r[i] == s[i]
    ensures forall i :: 0 <= i < |s| && IsForbidden(s[i]) ==> r[i] == '_'
  {
    seq(|s|, i requires 0 <= i < |s| => if IsForbidden(s[i]) then '_' else s[i])
  }

  /** The length of the whitespace run that starts `s`. */
  function LeadingSpaces(s: string): (n: nat)
    ensures n <= |s|
    ensures forall i :: 0 <= i < n ==> IsSpace(s[i])
    ensures n < |s| ==> !IsSpace(s[n])
  {
    if |s| > 0 && IsSpace(s[0]) then
      var n := 1 + LeadingSpaces(s[1..]);
      assert forall i :: 1 <= i < n ==> s[i] == s[1..][i - 1];
      n
    else 0
  }

  /** The length of the whitespace run that ends `s`. */
  function TrailingSpaces(s: string): (n: nat)
    ensures n <= |s|
    ensures forall i :: |s| - n <= i < |s| ==> IsSpace(s[i])
    ensures n < |s| ==> !IsSpace(s[|s| - 1 - n])
  {
    if |s| > 0 && IsSpace(s[|s| - 1]) then 1 + TrailingSpaces(s[..|s| - 1]) else 0
  }

  /** `re.sub(r'\s+', " ", s)`: each maximal whitespace run is replaced by a single space. */
  function Collapse(s: string): (r: string)
    ensures |r| <= |s|
    ensures |s| > 0 ==> |r| > 0 && (IsSpace(r[0]) <==> IsSpace(s[0]))
    decreases |s|
  {
    if s == [] then []
    else if IsSpace(s[0]) then
      var rest := s[LeadingSpaces(s)..];
      [' '] + Collapse(rest)
    else
      [s[0]] + Collapse(s[1..])
  }

  /** After the collapse the only whitespace is a plain space, never two in a row, and nothing forbidden appears. */
  lemma {:induction false} CollapseClean(s: string)
    ensures SpacesAreBlanks(Collapse(s)) && NoAdjacentSpaces(Collapse(s))
    ensures NoForbidden(s) ==> NoForbidden(Collapse(s))
    decreases |s|
  {
    if s != [] {
      var n := if IsSpace(s[0]) then LeadingSpaces(s) else 1;
      var h := if IsSpace(s[0]) then [' '] else [s[0]];
      var rest := Collapse(s[n..]);
      CollapseClean(s[n..]);
      assert Collapse(s) == h + rest;
      assert forall i :: 0 < i <= |rest| ==> Collapse(s)[i] == rest[i - 1];
      if NoForbidden(s) {
        assert forall i :: 0 <= i < |s| - n ==> s[n..][i] == s[n + i];
      }
    }
  }

  /** `s.strip()`: the slice of `s` between its leading and its trailing whitespace. */
  function Strip(s: string): (r: string)
    ensures Trimmed(r)
    ensures LeadingSpaces(s) + |r| <= |s| && r == s[LeadingSpaces(s)..LeadingSpaces(s) + |r|]
    ensures forall i :: 0 <= i < LeadingSpaces(s) ==> IsSpace(s[i])
    ensures forall i :: LeadingSpaces(s) + |r| <= i < |s| ==> IsSpace(s[i])
  {
    var rest := s[LeadingSpaces(s)..];
    rest[..|rest| - TrailingSpaces(rest)]
  }

  /** The name before the length cap: replaced, collapsed and stripped. */
  function Cleaned(s: string): (c: string)
    ensures NoForbidden(c) && SpacesAreBlanks(c) && NoAdjacentSpaces(c) && Trimmed(c)
  {
    var collapsed := Collapse(ReplaceForbidden(s));
    CollapseClean(ReplaceForbidden(s));
    var c := Strip(collapsed);
    var a := LeadingSpaces(collapsed);
    assert forall i :: 0 <= i < |c| ==> c[i] == collapsed[a + i];
    c
  }

  /** `sanitize_filename(s)`. */
  function Sanitize(s: string): (r: string)
    ensures Clean(r)
    ensures |Cleaned(s)| <= MaxLength ==> r == Cleaned(s)
    ensures |Cleaned(s)| > MaxLength ==>
      |r| == MaxLength && r[..KeptLength] == Cleaned(s)[..KeptLength] && r[KeptLength..] == Ellipsis
  {
    var c := Cleaned(s);
    if |c| > MaxLength then
      CapKeepsClean(c);
      c[..KeptLength] + Ellipsis
    else c
  }

  /** Cutting a long name to 147 characters and adding "..." keeps it clean. */
  lemma CapKeepsClean(c: string)
    requires NoForbidden(c) && SpacesAreBlanks(c) && NoAdjacentSpaces(c) && Trimmed(c) && |c| > MaxLength
    ensures Clean(c[..KeptLength] + Ellipsis)
  {
    var r := c[..KeptLength] + Ellipsis;
    assert forall i :: 0 <= i < KeptLength ==> r[i] == c[i];
    assert forall i :: KeptLength <= i < |r| ==> r[i] == '.';
    assert !IsSpace('.') && !IsForbidden('.');
    assert NoForbidden(r);
    assert SpacesAreBlanks(r);
    assert NoAdjacentSpaces(r);
  }

  /** A string with only plain spaces, never two in a row, is left alone by the whitespace collapse. */
  lemma {:induction false} CollapseIdentity(s: string)
    requires SpacesAreBlanks(s) && NoAdjacentSpaces(s)
    ensures Collapse(s) == s
    decreases |s|
  {
    if s != [] {
      if IsSpace(s[0]) {
        assert |s| > 1 ==> !IsSpace(s[1]) && s[1..][0] == s[1];
        assert LeadingSpaces(s[1..]) == 0;
        assert LeadingSpaces(s) == 1;
      }
      CollapseIdentity(s[1..]);
      assert s == [s[0]] + s[1..];
    }
  }

  /** `sanitize_filename` leaves a name unchanged exactly when the name is already clean. */
  lemma SanitizeFixedPoints(s: string)
    ensures Sanitize(s) == s <==> Clean(s)
  {
    if Clean(s) {
      assert ReplaceForbidden(s) == s;
      CollapseIdentity(s);
      if |s| > 0 {
        assert LeadingSpaces(s) == 0;
        assert TrailingSpaces(s) == 0;
      }
      assert Strip(s) == s;
    }
  }

  /** Sanitising twice gives the same name as sanitising once. */
  lemma SanitizeIdempotent(s: string)
    ensures Sanitize(Sanitize(s)) == Sanitize(s)
  {
    SanitizeFixedPoints(Sanitize(s));
  }

  lemma {:induction false} NonSpacesAppend(a: string, b: string)
    ensures NonSpaces(a + b) == NonSpaces(a) + NonSpaces(b)
    decreases |a|
  {
    if a != [] {
      assert (a + b)[1..] == a[1..] + b;
      NonSpacesAppend(a[1..], b);
    } else {
      assert a + b == b;
    }
  }

  lemma {:induction false} NonSpacesOfSpaces(s: string)
    requires forall i :: 0 <= i < |s| ==> IsSpace(s[i])
    ensures NonSpaces(s) == []
    decreases |s|
  {
    if s != [] {
      NonSpacesOfSpaces(s[1..]);
    }
  }

  /** Collapsing whitespace never loses, adds or reorders a non-whitespace character. */
  lemma {:induction false} CollapseKeepsText(s: string)
    ensures NonSpaces(Collapse(s)) == NonSpaces(s)
    decreases |s|
  {
    if s != [] {
      if IsSpace(s[0]) {
        var n := LeadingSpaces(s);
        var rest := s[n..];
        CollapseKeepsText(rest);
        NonSpacesAppend([' '], Collapse(rest));
        assert s == s[..n] + rest;
        NonSpacesAppend(s[..n], rest);
        NonSpacesOfSpaces(s[..n]);
      } else {
        CollapseKeepsText(s[1..]);
        NonSpacesAppend([s[0]], Collapse(s[1..]));
        NonSpacesAppend([s[0]], s[1..]);
        assert s == [s[0]] + s[1..];
      }
    }
  }

  /** A leading run that ends inside `a` is not lengthened by what follows `a`. */
  lemma LeadingSpacesAppend(a: string, b: string)
    requires LeadingSpaces(a) < |a|
    ensures LeadingSpaces(a + b) == LeadingSpaces(a)
  {
    var n := LeadingSpaces(a);
    assert (a + b)[n] == a[n];
  }

  /** Where `a` ends in a non-whitespace character, the collapse of `a + b` splits at that point. */
  lemma {:induction false} CollapseSplit(a: string, b: string)
    requires a == [] || !IsSpace(a[|a| - 1])
    ensures Collapse(a + b) == Collapse(a) + Collapse(b)
    decreases |a|
  {
    if a == [] {
      assert a + b == b;
    } else {
      var n := if IsSpace(a[0]) then LeadingSpaces(a) else 1;
      CollapseSplit(a[n..], b);
      CollapseStep(a, b, n);
    }
  }

  /** One step of `CollapseSplit`: the first run or character of `a`, then the rest of `a` followed by `b`. */
  lemma CollapseStep(a: string, b: string, n: nat)
    requires a != [] && !IsSpace(a[|a| - 1])
    requires n == if IsSpace(a[0]) then LeadingSpaces(a) else 1
    requires n <= |a| && Collapse(a[n..] + b) == Collapse(a[n..]) + Collapse(b)
    ensures Collapse(a + b) == Collapse(a) + Collapse(b)
  {
    if IsSpace(a[0]) {
      LeadingSpacesAppend(a, b);
    }
    CollapseHead(a, b, n);
    AppendAssoc(if IsSpace(a[0]) then [' '] else [a[0]], Collapse(a[n..]), Collapse(b));
  }

  /** The collapse of `a + b` starts like that of `a`, with its first run or character taken off. */
  lemma CollapseHead(a: string, b: string, n: nat)
    requires a != [] && n <= |a|
    requires n == if IsSpace(a[0]) then LeadingSpaces(a) else 1
    requires IsSpace(a[0]) ==> LeadingSpaces(a + b) == n
    ensures Collapse(a + b) == (if IsSpace(a[0]) then [' '] else [a[0]]) + Collapse(a[n..] + b)
    ensures Collapse(a) == (if IsSpace(a[0]) then [' '] else [a[0]]) + Collapse(a[n..])
  {
    assert (a + b)[0] == a[0];
    DropAppend(a, b, n);
  }

  /**
   * `re.sub(r'\s+', " ", s)` turns a whitespace run between two non-whitespace characters (or the ends
   * of the string) into exactly one space and leaves the text on either side to be collapsed on its own.
   */
  lemma CollapseRun(a: string, w: string, b: string)
    requires |w| > 0 && forall i :: 0 <= i < |w| ==> IsSpace(w[i])
    requires a == [] || !IsSpace(a[|a| - 1])
    requires b == [] || !IsSpace(b[0])
    ensures Collapse(a + w + b) == Collapse(a) + " " + Collapse(b)
  {
    assert a + w + b == a + (w + b);
    CollapseSplit(a, w + b);
    CollapseBlank(w, b);
    AppendAssoc(Collapse(a), " ", Collapse(b));
  }

  /** A whitespace run followed by a non-whitespace character (or nothing) collapses to one space. */
  lemma CollapseBlank(w: string, b: string)
    requires |w| > 0 && forall i :: 0 <= i < |w| ==> IsSpace(w[i])
    requires b == [] || !IsSpace(b[0])
    ensures Collapse(w + b) == " " + Collapse(b)
  {
    assert forall i :: 0 <= i < |w| ==> (w + b)[i] == w[i];
    assert |b| > 0 ==> (w + b)[|w|] == b[0];
    assert LeadingSpaces(w + b) == |w|;
    DropAppend(w, b, |w|);
    assert (w + b)[0] == w[0];
  }
  /** Stripping removes whitespace only. */
  lemma StripKeepsText(s: string)
    ensures NonSpaces(Strip(s)) == NonSpaces(s)
  {
    var a := LeadingSpaces(s);
    var r := Strip(s);
    var x, y := s[..a], s[a + |r|..];
    assert s == x + r + y;
    NonSpacesFramed(x, r, y);
  }

  /** Whitespace on either side adds nothing to the non-whitespace text. */
  lemma NonSpacesFramed(x: string, r: string, y: string)
    requires forall i :: 0 <= i < |x| ==> IsSpace(x[i])
    requires forall i :: 0 <= i < |y| ==> IsSpace(y[i])
    ensures NonSpaces(x + r + y) == NonSpaces(r)
  {
    NonSpacesAppend(x + r, y);
    NonSpacesAppend(x, r);
    NonSpacesOfSpaces(x);
    NonSpacesOfSpaces(y);
  }

  /**
   * When no truncation happens, the sanitised name keeps every non-whitespace character of the input,
   * in order, forbidden ones turned into `_`: only whitespace is changed.
   */
  lemma SanitizeKeepsText(s: string)
    requires |Cleaned(s)| <= MaxLength
    ensures NonSpaces(Sanitize(s)) == NonSpaces(ReplaceForbidden(s))
  {
    CollapseKeepsText(ReplaceForbidden(s));
    StripKeepsText(Collapse(ReplaceForbidden(s)));
  }
}
