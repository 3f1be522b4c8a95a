/**
 * The string operations of java.lang.String and commons-lang that the binding relies on,
 * stated over `seq<char>`.
 */
module Text {
  import opened Wrappers

  /** StringUtils.isEmpty: true for null and for "". */
  predicate IsEmpty(s: Option<string>) {
    s.None? || |s.value| == 0
  }

  predicate IsUpper(c: char) { 'A' <= c <= 'Z' }

  predicate IsLower(c: char) { 'a' <= c <= 'z' }

  /** Case folding used by equalsIgnoreCase, restricted to the ASCII letters. */
  function FoldCase(c: char): (r: char)
    ensures IsUpper(c) ==> IsLower(r)
    ensures !IsUpper(c) ==> r == c
  {
    if IsUpper(c) then (c as int + 32) as char else c
  }

  /** String.equalsIgnoreCase on two non-null strings. */
  predicate EqualsIgnoreCase(a: string, b: string) {
    |a| == |b| && forall i :: 0 <= i < |a| ==> FoldCase(a[i]) == FoldCase(b[i])
  }

  lemma EqualsIgnoreCaseSymmetric(a: string, b: string)
    ensures EqualsIgnoreCase(a, b) <==> EqualsIgnoreCase(b, a)
  {
  }

  lemma EqualsIgnoreCaseTransitive(a: string, b: string, c: string)
    requires EqualsIgnoreCase(a, b) && EqualsIgnoreCase(b, c)
    ensures EqualsIgnoreCase(a, c)
  {
  }

  /** String.startsWith. */
  predicate StartsWith(s: string, prefix: string) {
    |prefix| <= |s| && s[..|prefix|] == prefix
  }

  /** `target` occurs in `s` starting at position `i`. */
  predicate OccursAt(target: string, s: string, i: nat) {
    i + |target| <= |s| && s[i..i + |target|] == target
  }

  /** `target` occurs somewhere in `s`. */
  predicate Occurs(target: string, s: string) {
    exists i: nat | i <= |s| :: OccursAt(target, s, i)
  }

  /**
   * String.replace(target, ""): every occurrence of `target`, found left to right without
   * overlap, is deleted.
   */
  function RemoveAll(s: string, target: string): (r: string)
    requires |target| > 0
    ensures |r| <= |s|
    decreases |s|
  {
    if |s| == 0 then s
    else if StartsWith(s, target) then RemoveAll(s[|target|..], target)
    else [s[0]] + RemoveAll(s[1..], target)
  }

  /** A string in which `target` never occurs comes out of RemoveAll unchanged. */
  lemma {:induction false} RemoveAllAbsent(s: string, target: string)
    requires |target| > 0 && !Occurs(target, s)
    ensures RemoveAll(s, target) == s
    decreases |s|
  {
    if |s| > 0 {
      assert !OccursAt(target, s, 0);
      forall i: nat | i <= |s| - 1 && OccursAt(target, s[1..], i) ensures OccursAt(target, s, i + 1) {
        assert s[1..][i..i + |target|] == s[i + 1..i + 1 + |target|];
      }
      RemoveAllAbsent(s[1..], target);
      assert s == [s[0]] + s[1..];
    }
  }

  /** A string that starts with `target` loses that prefix first. */
  lemma RemoveAllPrefix(s: string, target: string)
    requires |target| > 0 && StartsWith(s, target)
    ensures RemoveAll(s, target) == RemoveAll(s[|target|..], target)
  {
  }

  /**
   * The deletion is a single left-to-right pass: removing "ab" from "aabb" deletes the one
   * occurrence the scan meets and leaves a new "ab" formed by the characters around it.
   */
  lemma RemoveAllSinglePass()
    ensures RemoveAll("aabb", "ab") == "ab"
  {
    var s, target := "aabb", "ab";
    assert s[..2][1] != target[1] && s[1..] == "abb";
    assert s[1..][..2] == target && s[1..][2..] == "b";
    assert |"b"| < |target| && "b"[1..] == "";
    assert RemoveAll("", target) == "";
    assert RemoveAll("b", target) == "b";
    assert RemoveAll("abb", target) == "b";
    assert RemoveAll(s, target) == [s[0]] + "b";
  }

  /** Java's String.trim treats every character up to U+0020 as white space. */
  predicate IsTrimmable(c: char) { c <= ' ' }

  function TrimStart(s: string): (r: string)
    ensures |r| <= |s| && r == s[|s| - |r|..]
    ensures |r| > 0 ==> !IsTrimmable(r[0])
    ensures forall i :: 0 <= i < |s| - |r| ==> IsTrimmable(s[i])
    decreases |s|
  {
    if |s| > 0 && IsTrimmable(s[0]) then TrimStart(s[1..]) else s
  }

  function TrimEnd(s: string): (r: string)
    ensures |r| <= |s| && r == s[..|r|]
    ensures |r| > 0 ==> !IsTrimmable(r[|r| - 1])
    ensures forall i :: |r| <= i < |s| ==> IsTrimmable(s[i])
    decreases |s|
  {
    if |s| > 0 && IsTrimmable(s[|s| - 1]) then TrimEnd(s[..|s| - 1]) else s
  }

  /** String.trim. */
  function Trim(s: string): string {
    TrimEnd(TrimStart(s))
  }

  /**
   * String.lastIndexOf for one character: the position of the last occurrence of `c`,
   * or -1 when there is none.
   */
  function LastIndexOf(s: string, c: char): (r: int)
    ensures -1 <= r < |s|
    ensures r >= 0 ==> s[r] == c
    ensures forall j :: r < j < |s| ==> s[j] != c
    decreases |s|
  {
    if |s| == 0 then -1
    else if s[|s| - 1] == c then |s| - 1
    else LastIndexOf(s[..|s| - 1], c)
  }
}
