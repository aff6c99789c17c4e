/** The JavaScript string operations the source relies on: `trim`, `startsWith`,
    `endsWith`, `includes` and `Array.prototype.join`. Strings are sequences of
    code points. */
module JsText {

  /** The characters `String.prototype.trim` removes: ECMAScript WhiteSpace
      (tab, vertical tab, form feed, space, no-break space, byte-order mark and
      the other Zs space separators) and LineTerminator. */
  predicate IsJsWhitespace(c: char) {
    c == '\t' || c == '\n' || c == '\U{B}' || c == '\U{C}' || c == '\r' || c == ' '
    || c == '\U{A0}' || c == '\U{1680}' || ('\U{2000}' <= c <= '\U{200A}')
    || c == '\U{2028}' || c == '\U{2029}' || c == '\U{202F}' || c == '\U{205F}'
    || c == '\U{3000}' || c == '\U{FEFF}'
  }

  predicate AllWhitespace(s: string) {
    forall i :: 0 <= i < |s| ==> IsJsWhitespace(s[i])
  }

  /** Leading whitespace removed: the longest all-whitespace prefix is dropped. */
  function TrimStart(s: string): (r: string)
    ensures |r| <= |s| && r == s[|s| - |r|..]
    ensures AllWhitespace(s[..|s| - |r|])
    ensures r == [] || !IsJsWhitespace(r[0])
  {
    if s == [] || !IsJsWhitespace(s[0]) then s
    else
      var t := TrimStart(s[1..]);
      assert s[1..][..|s| - 1 - |t|] == s[1..|s| - |t|];
      assert s[1..][|s| - 1 - |t|..] == s[|s| - |t|..];
      t
  }

  /** Trailing whitespace removed: the longest all-whitespace suffix is dropped. */
  function TrimEnd(s: string): (r: string)
    ensures |r| <= |s| && r == s[..|r|]
    ensures AllWhitespace(s[|r|..])
    ensures r == [] || !IsJsWhitespace(r[|r| - 1])
  {
    if s == [] || !IsJsWhitespace(s[|s| - 1]) then s
    else
      var t := TrimEnd(s[..|s| - 1]);
      assert s[..|s| - 1][|t|..] == s[|t|..|s| - 1];
      t
  }

  lemma PrefixWhitespace(s: string, k: int)
    requires 0 <= k <= |s| && AllWhitespace(s[..k])
    ensures forall j :: 0 <= j < k ==> IsJsWhitespace(s[j])
  {
    forall j | 0 <= j < k ensures IsJsWhitespace(s[j]) { assert s[..k][j] == s[j]; }
  }

  lemma SuffixWhitespace(s: string, k: int)
    requires 0 <= k <= |s| && AllWhitespace(s[k..])
    ensures forall j :: k <= j < |s| ==> IsJsWhitespace(s[j])
  {
    forall j | k <= j < |s| ensures IsJsWhitespace(s[j]) { assert s[k..][j - k] == s[j]; }
  }

  /** `s.trim()`. */
  function Trim(s: string): (r: string)
  {
    TrimEnd(TrimStart(s))
  }

  /** `s.trim()` is a slice of `s` between two runs of whitespace, and has no
      whitespace at either end. */
  lemma TrimIsCore(s: string)
    ensures exists i, j :: (0 <= i <= j <= |s| && Trim(s) == s[i..j]
                            && AllWhitespace(s[..i]) && AllWhitespace(s[j..]))
    ensures Trim(s) == [] || (!IsJsWhitespace(Trim(s)[0]) && !IsJsWhitespace(Trim(s)[|Trim(s)| - 1]))
  {
    var i, j := TrimBounds(s);
  }

  lemma TrimBounds(s: string) returns (i: int, j: int)
    ensures 0 <= i <= j <= |s| && Trim(s) == s[i..j]
    ensures AllWhitespace(s[..i]) && AllWhitespace(s[j..])
  {
    var u := TrimStart(s);
    var r := TrimEnd(u);
    i := |s| - |u|;
    j := i + |r|;
    SlicesOfSuffix(s, i, |r|);
  }

  lemma SlicesOfSuffix(s: string, i: int, k: int)
    requires 0 <= i <= |s| && 0 <= k <= |s| - i
    ensures s[i..][..k] == s[i..i + k] && s[i..][k..] == s[i + k..]
  {
  }

  /** `s.trim() !== ''` (equivalently, the truthiness of `s.trim()`) holds
      exactly when `s` has a character that is not whitespace. */
  lemma {:induction false} TrimEmptyIffBlank(s: string)
    ensures Trim(s) == [] <==> AllWhitespace(s)
  {
    var u := TrimStart(s);
    if Trim(s) == [] {
      assert u[0..] == u;
      assert u == [];
      assert s[..|s|] == s;
    } else {
      assert u != [];
      assert !IsJsWhitespace(u[0]) && u[0] == s[|s| - |u|];
    }
  }

  /** `s.startsWith(prefix)`. */
  predicate StartsWith(s: string, prefix: string) {
    |prefix| <= |s| && s[..|prefix|] == prefix
  }

  /** `s.endsWith(suffix)`. */
  predicate EndsWith(s: string, suffix: string) {
    |suffix| <= |s| && s[|s| - |suffix|..] == suffix
  }

  /** `sub` occurs in `s` starting at index `i`. */
  predicate OccursAt(s: string, sub: string, i: int) {
    0 <= i <= |s| - |sub| && s[i..i + |sub|] == sub
  }

  /** `s.includes(sub)`, computed by scanning from the left. */
  function Includes(s: string, sub: string): (b: bool)
    ensures b <==> exists i :: OccursAt(s, sub, i)
    decreases |s|
  {
    if StartsWith(s, sub) then
      assert OccursAt(s, sub, 0);
      true
    else if s == [] then false
    else
      var b := Includes(s[1..], sub);
      if b then
        var i :| OccursAt(s[1..], sub, i);
        assert s[i + 1..i + 1 + |sub|] == s[1..][i..i + |sub|];
        assert OccursAt(s, sub, i + 1);
        true
      else
        assert forall i :: OccursAt(s, sub, i) ==> i == 0 || OccursAt(s[1..], sub, i - 1) by {
          forall i | OccursAt(s, sub, i) && i > 0 ensures OccursAt(s[1..], sub, i - 1) {
            assert s[1..][i - 1..i - 1 + |sub|] == s[i..i + |sub|];
          }
        }
        false
  }

  /** A string cannot include a substring holding a character it lacks. */
  lemma AbsentCharExcludes(s: string, sub: string, c: char)
    requires c in sub && c !in s
    ensures !Includes(s, sub)
  {
    var j :| 0 <= j < |sub| && sub[j] == c;
    forall i | 0 <= i <= |s| - |sub| ensures !OccursAt(s, sub, i) {
      assert s[i..i + |sub|][j] == s[i + j];
    }
  }

  /** `parts.join(sep)`. */
  function Join(parts: seq<string>, sep: string): (r: string)
  {
    if |parts| == 0 then ""
    else if |parts| == 1 then parts[0]
    else Join(parts[..|parts| - 1], sep) + sep + parts[|parts| - 1]
  }

  /** Joining puts each part in order with one separator between neighbours:
      the length is the sum of the parts plus one separator per gap. */
  lemma {:induction false} JoinLength(parts: seq<string>, sep: string)
    requires |parts| > 0
    ensures |Join(parts, sep)| == TotalLength(parts) + (|parts| - 1) * |sep|
  {
    if |parts| > 1 {
      JoinLength(parts[..|parts| - 1], sep);
      TotalLengthSnoc(parts[..|parts| - 1], parts[|parts| - 1]);
      assert parts[..|parts| - 1] + [parts[|parts| - 1]] == parts;
      assert (|parts| - 1) * |sep| == (|parts| - 2) * |sep| + |sep|;
    }
  }

  function TotalLength(parts: seq<string>): nat {
    if parts == [] then 0 else |parts[0]| + TotalLength(parts[1..])
  }

  lemma {:induction false} TotalLengthSnoc(parts: seq<string>, last: string)
    ensures TotalLength(parts + [last]) == TotalLength(parts) + |last|
  {
    if parts != [] {
      assert (parts + [last])[1..] == parts[1..] + [last];
      TotalLengthSnoc(parts[1..], last);
    }
  }

  /** Every part appears in the joined string at the offset the parts before it
      and their separators occupy. */
  lemma {:induction false} JoinContainsPart(parts: seq<string>, sep: string, k: nat)
    requires k < |parts|
    ensures var off := if k == 0 then 0 else |Join(parts[..k], sep)| + |sep|;
      off + |parts[k]| <= |Join(parts, sep)| && Join(parts, sep)[off..off + |parts[k]|] == parts[k]
  {
    var n := |parts|;
    if n > 1 {
      var init := parts[..n - 1];
      if k == n - 1 {
        assert parts[..k] == init;
        JoinLast(parts, sep);
      } else {
        JoinContainsPart(init, sep, k);
        assert init[..k] == parts[..k] && init[k] == parts[k];
        JoinExtends(parts, sep);
        var off := if k == 0 then 0 else |Join(parts[..k], sep)| + |sep|;
        SliceOfPrefix(Join(parts, sep), |Join(init, sep)|, off, off + |parts[k]|);
      }
    }
  }

  /** The last part closes the joined string. */
  lemma JoinLast(parts: seq<string>, sep: string)
    requires |parts| > 1
    ensures var off := |Join(parts[..|parts| - 1], sep)| + |sep|;
      off + |parts[|parts| - 1]| == |Join(parts, sep)| && Join(parts, sep)[off..] == parts[|parts| - 1]
  {
  }

  /** Joining one more part extends the joined string. */
  lemma JoinExtends(parts: seq<string>, sep: string)
    requires |parts| > 1
    ensures var j := Join(parts[..|parts| - 1], sep);
      |j| <= |Join(parts, sep)| && Join(parts, sep)[..|j|] == j
  {
  }

  lemma SliceOfPrefix(s: string, m: int, i: int, j: int)
    requires 0 <= i <= j <= m <= |s|
    ensures s[..m][i..j] == s[i..j]
  {
  }
}
