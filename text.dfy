/** The string functions of Go's `strings` package that the engine mock
    relies on: `TrimSpace`, `Fields` and `Join`, over strings of code points.
    White space is Go's `unicode.IsSpace`, which both `TrimSpace` and
    `Fields` use. `Split` is the inverse of `Join` and serves the proofs. */
module Text {

  /** `unicode.IsSpace`: the ASCII white space characters, NEL, NBSP and the
      other code points with the Unicode White_Space property. */
  predicate IsSpace(c: char) {
    var n := c as int;
    (0x09 <= n <= 0x0D) || n == 0x20 || n == 0x85 || n == 0xA0 || n == 0x1680
    || (0x2000 <= n <= 0x200A) || n == 0x2028 || n == 0x2029 || n == 0x202F
    || n == 0x205F || n == 0x3000
  }

  predicate AllSpace(s: string) {
    forall i :: 0 <= i < |s| ==> IsSpace(s[i])
  }

  predicate NoSpace(s: string) {
    forall i :: 0 <= i < |s| ==> !IsSpace(s[i])
  }

  /** The number of white space characters `s` starts with. */
  function LeadingSpaces(s: string): (n: nat)
    ensures n <= |s|
    ensures forall k :: 0 <= k < n ==> IsSpace(s[k])
    ensures n < |s| ==> !IsSpace(s[n])
    decreases |s|
  {
    if s != [] && IsSpace(s[0]) then 1 + LeadingSpaces(s[1..]) else 0
  }

  /** The number of white space characters `s` ends with. */
  function TrailingSpaces(s: string): (n: nat)
    ensures n <= |s|
    ensures forall k :: |s| - n <= k < |s| ==> IsSpace(s[k])
    ensures n < |s| ==> !IsSpace(s[|s| - n - 1])
    decreases |s|
  {
    if s != [] && IsSpace(s[|s| - 1]) then 1 + TrailingSpaces(s[..|s| - 1]) else 0
  }

  /** `strings.TrimSpace`: the slice of `s` between its leading and its
      trailing white space; empty exactly for a blank string, and otherwise
      starting and ending with a character that is not white space. */
  function TrimSpace(s: string): (r: string)
    ensures exists i, j :: 0 <= i <= j <= |s| && r == s[i..j] && AllSpace(s[..i]) && AllSpace(s[j..])
    ensures r == [] <==> AllSpace(s)
    ensures r == [] || (!IsSpace(r[0]) && !IsSpace(r[|r| - 1]))
  {
    var i := LeadingSpaces(s);
    var j := |s| - TrailingSpaces(s[i..]);
    TrimBounds(s, i, j);
    s[i..j]
  }

  /** The cut points of `TrimSpace`: only white space lies outside them, and
      they meet exactly when `s` is blank. */
  lemma {:induction false} TrimBounds(s: string, i: nat, j: int)
    requires i == LeadingSpaces(s) && j == |s| - TrailingSpaces(s[i..])
    ensures i <= j <= |s| && AllSpace(s[..i]) && AllSpace(s[j..])
    ensures i == j <==> AllSpace(s)
    ensures i < j ==> !IsSpace(s[i]) && !IsSpace(s[j - 1])
  {
    var t := s[i..];
    var n := TrailingSpaces(t);
    assert forall k :: 0 <= k < i ==> s[..i][k] == s[k];
    assert forall k :: 0 <= k < |s| - j ==> s[j..][k] == t[|t| - n + k];
    if i == j {
      assert s == s[..i] + s[j..];
      assert forall k :: 0 <= k < |s| ==> s[k] == (s[..i] + s[j..])[k];
    }
    if AllSpace(s) {
      assert i == |s|;
    }
    if i < j {
      assert s[j - 1] == t[|t| - n - 1];
    }
  }

  /** The length of the word `s` starts with: its longest prefix free of
      white space. */
  function WordLen(s: string): (n: nat)
    ensures n <= |s| && NoSpace(s[..n])
    ensures n < |s| ==> IsSpace(s[n])
    decreases |s|
  {
    if s == [] || IsSpace(s[0]) then 0 else 1 + WordLen(s[1..])
  }

  /** `strings.Fields`: the maximal runs of characters that are not white
      space, in order; every one of them is a non-empty word. */
  function Fields(s: string): (words: seq<string>)
    ensures forall i :: 0 <= i < |words| ==> |words[i]| > 0 && NoSpace(words[i])
    decreases |s|
  {
    if s == [] then []
    else if IsSpace(s[0]) then Fields(s[1..])
    else
      var n := WordLen(s);
      [s[..n]] + Fields(s[n..])
  }

  /** A non-empty run of characters that are not white space is one word. */
  lemma FieldsOfWord(w: string)
    requires |w| > 0 && NoSpace(w)
    ensures Fields(w) == [w]
  {
    WordLenOfWord(w, []);
    assert w + [] == w;
  }

  /** Words end only at white space: a word followed by white space is the
      first word, and the rest are the words after it. */
  lemma FieldsWordThenSpaces(w: string, sp: string, s: string)
    requires |w| > 0 && NoSpace(w) && |sp| > 0 && AllSpace(sp)
    ensures Fields(w + sp + s) == [w] + Fields(s)
  {
    var t := w + sp + s;
    assert t == w + (sp + s);
    assert (sp + s)[0] == sp[0];
    WordLenOfWord(w, sp + s);
    assert t[0] == w[0];
    assert t[..|w|] == w;
    assert t[|w|..] == sp + s;
    FieldsAfterSpaces(sp, s);
  }

  /** The word at the start of `w + s` is all of `w` when `w` has no white
      space and `s` is empty or starts with white space. */
  lemma {:induction false} WordLenOfWord(w: string, s: string)
    requires NoSpace(w)
    requires s == [] || IsSpace(s[0])
    ensures WordLen(w + s) == |w|
    decreases |w|
  {
    if w == [] {
      assert w + s == s;
    } else {
      assert (w + s)[0] == w[0];
      assert (w + s)[1..] == w[1..] + s;
      WordLenOfWord(w[1..], s);
    }
  }

  /** A string has no words exactly when it is blank. */
  lemma {:induction false} FieldsBlank(s: string)
    ensures Fields(s) == [] <==> AllSpace(s)
    decreases |s|
  {
    if s != [] {
      FieldsBlank(s[1..]);
      if IsSpace(s[0]) {
        assert AllSpace(s) <==> AllSpace(s[1..]) by {
          if AllSpace(s[1..]) {
            forall i | 0 < i < |s| ensures IsSpace(s[i]) {
              assert s[i] == s[1..][i - 1];
            }
          }
        }
      }
    }
  }

  /** Leading white space does not change the words. */
  lemma {:induction false} FieldsAfterSpaces(sp: string, s: string)
    requires AllSpace(sp)
    ensures Fields(sp + s) == Fields(s)
    decreases |sp|
  {
    if sp != [] {
      assert (sp + s)[0] == sp[0] && IsSpace(sp[0]);
      assert (sp + s)[1..] == sp[1..] + s;
      assert Fields(sp + s) == Fields(sp[1..] + s);
      FieldsAfterSpaces(sp[1..], s);
    } else {
      assert sp + s == s;
    }
  }

  /** Trailing white space does not change the words. */
  lemma {:induction false} FieldsBeforeSpaces(s: string, sp: string)
    requires AllSpace(sp)
    ensures Fields(s + sp) == Fields(s)
    decreases |s|
  {
    if s == [] {
      assert s + sp == sp;
      FieldsBlank(sp);
    } else if IsSpace(s[0]) {
      assert (s + sp)[1..] == s[1..] + sp;
      FieldsBeforeSpaces(s[1..], sp);
    } else {
      var n := WordLen(s);
      WordLenBeforeSpaces(s, sp);
      assert (s + sp)[..n] == s[..n];
      assert (s + sp)[n..] == s[n..] + sp;
      FieldsBeforeSpaces(s[n..], sp);
    }
  }

  lemma {:induction false} WordLenBeforeSpaces(s: string, sp: string)
    requires AllSpace(sp)
    ensures WordLen(s + sp) == WordLen(s)
    decreases |s|
  {
    if s == [] {
      assert s + sp == sp;
    } else if !IsSpace(s[0]) {
      assert (s + sp)[1..] == s[1..] + sp;
      WordLenBeforeSpaces(s[1..], sp);
    }
  }

  /** Trimming does not change the words. */
  lemma FieldsOfTrimSpace(s: string)
    ensures Fields(TrimSpace(s)) == Fields(s)
  {
    var i, j :| 0 <= i <= j <= |s| && TrimSpace(s) == s[i..j] && AllSpace(s[..i]) && AllSpace(s[j..]);
    FieldsOfInnerSlice(s, i, j);
  }

  /** Cutting off only white space at either end keeps the words. */
  lemma {:induction false} FieldsOfInnerSlice(s: string, i: nat, j: nat)
    requires i <= j <= |s| && AllSpace(s[..i]) && AllSpace(s[j..])
    ensures Fields(s[i..j]) == Fields(s)
  {
    assert s == s[..i] + (s[i..j] + s[j..]);
    FieldsAfterSpaces(s[..i], s[i..j] + s[j..]);
    FieldsBeforeSpaces(s[i..j], s[j..]);
  }

  /** The characters of `s` that are not white space, in order. */
  function RemoveSpaces(s: string): (r: string)
    ensures |r| <= |s| && NoSpace(r)
    decreases |s|
  {
    if s == [] then []
    else if IsSpace(s[0]) then RemoveSpaces(s[1..])
    else [s[0]] + RemoveSpaces(s[1..])
  }

  function Concat(parts: seq<string>): string
    decreases |parts|
  {
    if parts == [] then [] else parts[0] + Concat(parts[1..])
  }

  /** The words hold every character that is not white space, and nothing else. */
  lemma {:induction false} FieldsConcat(s: string)
    ensures Concat(Fields(s)) == RemoveSpaces(s)
    decreases |s|
  {
    if s != [] {
      if IsSpace(s[0]) {
        FieldsConcat(s[1..]);
      } else {
        var n := WordLen(s);
        FieldsConcat(s[n..]);
        assert s == s[..n] + s[n..];
        RemoveSpacesOfWord(s[..n], s[n..]);
        var ws := Fields(s);
        assert ws[0] == s[..n] && ws[1..] == Fields(s[n..]);
      }
    }
  }

  lemma {:induction false} RemoveSpacesOfWord(w: string, s: string)
    requires NoSpace(w)
    ensures RemoveSpaces(w + s) == w + RemoveSpaces(s)
    decreases |w|
  {
    if w != [] {
      assert (w + s)[0] == w[0] && !IsSpace(w[0]);
      assert (w + s)[1..] == w[1..] + s;
      RemoveSpacesOfWord(w[1..], s);
      assert RemoveSpaces(w + s) == [w[0]] + RemoveSpaces(w[1..] + s);
      assert w == [w[0]] + w[1..];
    } else {
      assert w + s == s;
    }
  }

  /** The sum of the lengths of `parts`. */
  function TotalLength(parts: seq<string>): nat
    decreases |parts|
  {
    if parts == [] then 0 else |parts[0]| + TotalLength(parts[1..])
  }

  /** `strings.Join`: the parts in order with `sep` between neighbours. */
  function Join(parts: seq<string>, sep: string): (r: string)
    ensures |parts| > 0 ==> |r| == TotalLength(parts) + (|parts| - 1) * |sep|
    ensures |parts| == 0 ==> r == []
    decreases |parts|
  {
    if |parts| == 0 then []
    else if |parts| == 1 then parts[0]
    else parts[0] + sep + Join(parts[1..], sep)
  }

  /** The position of the first `c` in `s`. */
  function IndexOf(s: string, c: char): (i: nat)
    requires c in s
    ensures i < |s| && s[i] == c
    ensures forall j :: 0 <= j < i ==> s[j] != c
    decreases |s|
  {
    if s[0] == c then 0 else 1 + IndexOf(s[1..], c)
  }

  /** The pieces of `s` between occurrences of `sep`: at least one, and none
      holding `sep`. */
  function Split(s: string, sep: char): (parts: seq<string>)
    ensures |parts| >= 1
    ensures forall i :: 0 <= i < |parts| ==> sep !in parts[i]
    decreases |s|
  {
    if sep !in s then [s]
    else
      var i := IndexOf(s, sep);
      [s[..i]] + Split(s[i + 1..], sep)
  }

  lemma IndexOfAfterWord(w: string, c: char, t: string)
    requires c !in w
    ensures c in w + [c] + t && IndexOf(w + [c] + t, c) == |w|
  {
    var s := w + [c] + t;
    assert s[|w|] == c;
    assert forall k :: 0 <= k < |w| ==> s[k] == w[k];
  }

  /** Splitting undoes joining, provided no part holds the separator. */
  lemma {:induction false} SplitJoin(parts: seq<string>, sep: char)
    requires |parts| >= 1
    requires forall i :: 0 <= i < |parts| ==> sep !in parts[i]
    ensures Split(Join(parts, [sep]), sep) == parts
    decreases |parts|
  {
    if |parts| > 1 {
      var rest := Join(parts[1..], [sep]);
      var s := parts[0] + [sep] + rest;
      assert Join(parts, [sep]) == s;
      IndexOfAfterWord(parts[0], sep, rest);
      assert s[..|parts[0]|] == parts[0];
      assert s[|parts[0]| + 1..] == rest;
      SplitJoin(parts[1..], sep);
    }
  }
}
