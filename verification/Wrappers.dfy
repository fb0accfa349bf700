/** Failure-carrying results and small string facts shared by every other module. */
module Wrappers {

  datatype Option<+T> = None | Some(value: T)

  datatype Result<+T, +E> = Ok(value: T) | Err(error: E)
}

module Strings {

  /** Substring search: `needle` occurs somewhere in `hay`. */
  predicate Contains(hay: string, needle: string) {
    exists i | 0 <= i <= |hay| :: OccursAt(hay, needle, i)
  }

  predicate OccursAt(hay: string, needle: string, i: int) {
    0 <= i <= |hay| - |needle| && hay[i..i + |needle|] == needle
  }

  lemma OccursInTail(pre: string, hay: string, needle: string, i: int)
    requires OccursAt(hay, needle, i)
    ensures OccursAt(pre + hay, needle, |pre| + i)
  {
  }

  lemma ContainsSelf(s: string)
    ensures Contains(s, s)
  {
    assert s[0..|s|] == s;
    assert OccursAt(s, s, 0);
  }

  lemma ContainsInTail(pre: string, hay: string, needle: string)
    requires Contains(hay, needle)
    ensures Contains(pre + hay, needle)
  {
    var i :| 0 <= i <= |hay| && OccursAt(hay, needle, i);
    OccursInTail(pre, hay, needle, i);
  }

  lemma ContainsInHead(hay: string, post: string, needle: string)
    requires Contains(hay, needle)
    ensures Contains(hay + post, needle)
  {
    var i :| 0 <= i <= |hay| && OccursAt(hay, needle, i);
    assert (hay + post)[i..i + |needle|] == hay[i..i + |needle|];
    assert OccursAt(hay + post, needle, i);
  }

  /**
   * A needle whose `k`-th character is nowhere in `pre`, and whose first character is none of
   * the last `k` characters of `pre`, occurs in `pre + hay` only where it occurs in `hay`.
   */
  lemma ContainsOnlyInTail(pre: string, hay: string, needle: string, k: nat)
    requires k < |needle| && k <= |pre|
    requires needle[k] !in pre
    requires needle[0] !in pre[|pre| - k..]
    ensures Contains(pre + hay, needle) <==> Contains(hay, needle)
  {
    if Contains(pre + hay, needle) {
      var i :| 0 <= i <= |pre + hay| && OccursAt(pre + hay, needle, i);
      OccursOnlyInTail(pre, hay, needle, k, i);
    }
    if Contains(hay, needle) {
      ContainsInTail(pre, hay, needle);
    }
  }

  lemma OccursOnlyInTail(pre: string, hay: string, needle: string, k: nat, i: int)
    requires k < |needle| && k <= |pre| && OccursAt(pre + hay, needle, i)
    requires needle[k] !in pre && needle[0] !in pre[|pre| - k..]
    ensures i >= |pre| && OccursAt(hay, needle, i - |pre|)
  {
    OccursAcross(pre, hay, needle, k, i);
    assert i >= |pre|;
    assert hay[i - |pre|..i - |pre| + |needle|] == (pre + hay)[i..i + |needle|];
  }

  /** An occurrence that begins in `pre` shows there its first character or its `k`-th. */
  lemma OccursAcross(pre: string, hay: string, needle: string, k: nat, i: int)
    requires k < |needle| && k <= |pre| && OccursAt(pre + hay, needle, i)
    ensures i + k < |pre| ==> needle[k] in pre
    ensures i < |pre| <= i + k ==> needle[0] in pre[|pre| - k..]
  {
    var seen := (pre + hay)[i..i + |needle|];
    if i + k < |pre| {
      assert seen[k] == pre[i + k];
    } else if i < |pre| {
      assert seen[0] == pre[|pre| - k..][i - (|pre| - k)];
    }
  }
}
