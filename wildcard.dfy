/** Case-insensitive wildcard matching of the kind the client uses for data
    exclusions and for user-agent bot patterns.  A pattern may carry one `*` at
    its start (match a suffix), one at its end (match a prefix), one at each end
    (match a substring), or none (match the whole value); the lone pattern `*`
    matches everything.  Case is ignored by folding ASCII letters to lower case. */
module Wildcard {

  function LowerChar(c: char): char {
    if 'A' <= c <= 'Z' then (c as int + 32) as char else c
  }

  /** The value with every ASCII upper-case letter folded to lower case. */
  function Lower(s: string): (r: string)
    ensures |r| == |s|
    ensures forall i :: 0 <= i < |s| ==> r[i] == LowerChar(s[i])
  {
    seq(|s|, i requires 0 <= i < |s| => LowerChar(s[i]))
  }

  predicate StartsWith(v: string, p: string) {
    |p| <= |v| && v[..|p|] == p
  }

  predicate EndsWith(v: string, p: string) {
    |p| <= |v| && v[|v| - |p|..] == p
  }

  /** `p` occurs in `v` starting at index `i`. */
  ghost predicate OccursAt(v: string, p: string, i: int) {
    0 <= i && i + |p| <= |v| && v[i..i + |p|] == p
  }

  /** Substring test, scanning `v` from the left as `IndexOf(p) >= 0` does. */
  function Contains(v: string, p: string): (r: bool)
    ensures r <==> exists i :: OccursAt(v, p, i)
    decreases |v|
  {
    if |p| > |v| then
      false
    else if v[..|p|] == p then
      assert OccursAt(v, p, 0);
      true
    else
      var r := Contains(v[1..], p);
      assert r <==> exists i :: OccursAt(v, p, i) by {
        if r {
          var i :| OccursAt(v[1..], p, i);
          assert v[1..][i..i + |p|] == v[i + 1..i + 1 + |p|];
          assert OccursAt(v, p, i + 1);
        } else {
          forall i | OccursAt(v, p, i) ensures false {
            if i > 0 {
              assert v[1..][i - 1..i - 1 + |p|] == v[i..i + |p|];
              assert OccursAt(v[1..], p, i - 1);
            }
          }
        }
      }
      r
  }

  /** How a pattern is read: the literal text between the optional leading and
      trailing `*`. */
  datatype Shape = Everything | Exact(text: string) | Prefix(text: string)
                 | Suffix(text: string) | Infix(text: string)

  function ShapeOf(pattern: string): Shape {
    if pattern == "*" then Everything
    else
      var leading := |pattern| > 0 && pattern[0] == '*';
      var rest := if leading then pattern[1..] else pattern;
      var trailing := |rest| > 0 && rest[|rest| - 1] == '*';
      var text := if trailing then rest[..|rest| - 1] else rest;
      if leading && trailing then Infix(text)
      else if leading then Suffix(text)
      else if trailing then Prefix(text)
      else Exact(text)
  }

  /** Whether `value` matches `pattern`, ignoring case. */
  predicate IsPatternMatch(value: string, pattern: string) {
    var v := Lower(value);
    match ShapeOf(pattern)
    case Everything => true
    case Exact(t) => v == Lower(t)
    case Prefix(t) => StartsWith(v, Lower(t))
    case Suffix(t) => EndsWith(v, Lower(t))
    case Infix(t) => Contains(v, Lower(t))
  }

  /** Whether any of the patterns matches `value`. */
  predicate AnyWildcardMatches(value: string, patterns: seq<string>) {
    exists i :: 0 <= i < |patterns| && IsPatternMatch(value, patterns[i])
  }

  // ---------------------------------------------------------------------
  // What the pattern forms mean

  /** `*text*` matches exactly the values that contain `text`, ignoring case. */
  lemma InfixMatchIff(value: string, text: string)
    ensures IsPatternMatch(value, "*" + text + "*")
        <==> exists i :: OccursAt(Lower(value), Lower(text), i)
  {
    var pattern := "*" + text + "*";
    assert pattern[1..] == text + "*";
    assert (text + "*")[..|text|] == text;
    assert ShapeOf(pattern) == Infix(text);
  }

  /** `text*` matches exactly the values that start with `text`, ignoring case,
      when `text` does not itself start with a wildcard. */
  lemma PrefixMatchIff(value: string, text: string)
    requires text == [] || text[0] != '*'
    ensures IsPatternMatch(value, text + "*") <==> StartsWith(Lower(value), Lower(text))
  {
    var pattern := text + "*";
    if text == [] {
      assert pattern == "*";
      assert Lower(text) == [];
    } else {
      assert pattern[0] == text[0];
      assert pattern[..|pattern| - 1] == text;
      assert ShapeOf(pattern) == Prefix(text);
    }
  }

  /** A pattern without wildcards at its ends matches only the values equal to
      it, ignoring case. */
  lemma ExactMatchIff(value: string, pattern: string)
    requires pattern != [] && pattern[0] != '*' && pattern[|pattern| - 1] != '*'
    ensures IsPatternMatch(value, pattern) <==> Lower(value) == Lower(pattern)
  {
    assert ShapeOf(pattern) == Exact(pattern);
  }

  /** Matching ignores case on both sides. */
  lemma MatchIgnoresCase(value: string, pattern: string)
    ensures IsPatternMatch(value, pattern) <==> IsPatternMatch(Lower(value), pattern)
  {
    assert Lower(Lower(value)) == Lower(value);
  }

  /** Adding patterns never removes a match. */
  lemma MorePatternsMatchMore(value: string, patterns: seq<string>, extra: seq<string>)
    requires AnyWildcardMatches(value, patterns)
    ensures AnyWildcardMatches(value, patterns + extra)
  {
    var i :| 0 <= i < |patterns| && IsPatternMatch(value, patterns[i]);
    assert (patterns + extra)[i] == patterns[i];
  }
}
