/**
 * The list editors the forms share: remove every copy of a value, toggle a
 * value, append a trimmed input when it is new, and remove one position.
 */
module ListEdit {
  import opened Seqs
  import Text

  /** The predicate of `list.filter((t) => t !== x)`. */
  function IsNot(x: string): string -> bool {
    y => y != x
  }

  /** `list.filter((t) => t !== x)`. */
  function RemoveAll(s: seq<string>, x: string): seq<string> {
    Filter(IsNot(x), s)
  }

  /** RemoveAll drops every copy of `x`, keeps every other element as often as before, in order. */
  lemma RemoveAllSpec(s: seq<string>, x: string)
    ensures x !in RemoveAll(s, x)
    ensures forall y :: y != x ==> multiset(RemoveAll(s, x))[y] == multiset(s)[y]
    ensures IsSubsequence(RemoveAll(s, x), s)
    ensures x !in s ==> RemoveAll(s, x) == s
  {
    forall y | y != x ensures multiset(RemoveAll(s, x))[y] == multiset(s)[y] {
      FilterCount(IsNot(x), s, y);
    }
    FilterCount(IsNot(x), s, x);
    FilterIsSubsequence(IsNot(x), s);
    if x !in s {
      FilterAll(IsNot(x), s);
    }
  }

  /** A subsequence of a duplicate-free list is duplicate-free. */
  lemma {:induction false} SubsequenceNoDup(a: seq<string>, b: seq<string>)
    requires IsSubsequence(a, b) && NoDup(b)
    ensures NoDup(a)
    decreases b
  {
    if a != [] && b != [] {
      if a[0] == b[0] {
        SubsequenceNoDup(a[1..], b[1..]);
        SubsequenceMembers(a[1..], b[1..]);
        assert b[0] !in b[1..];
        forall i, j | 0 <= i < j < |a| ensures a[i] != a[j] {
          assert a[j] == a[1..][j - 1];
          if i > 0 {
            assert a[i] == a[1..][i - 1];
          }
        }
      } else {
        SubsequenceNoDup(a, b[1..]);
      }
    }
  }

  /** Every element of a subsequence is an element of the whole. */
  lemma {:induction false} SubsequenceMembers(a: seq<string>, b: seq<string>)
    requires IsSubsequence(a, b)
    ensures forall x :: x in a ==> x in b
    decreases b
  {
    if a != [] && b != [] {
      if a[0] == b[0] {
        SubsequenceMembers(a[1..], b[1..]);
        assert a == [a[0]] + a[1..];
      } else {
        SubsequenceMembers(a, b[1..]);
      }
    }
  }

  /** `list.includes(x) ? list.filter((t) => t !== x) : [...list, x]`. */
  function Toggle(s: seq<string>, x: string): seq<string> {
    if x in s then RemoveAll(s, x) else s + [x]
  }

  /** Toggling flips the membership of `x`, leaves every other value as it was and keeps lists duplicate-free. */
  lemma ToggleSpec(s: seq<string>, x: string)
    ensures x in Toggle(s, x) <==> x !in s
    ensures forall y :: y != x ==> multiset(Toggle(s, x))[y] == multiset(s)[y]
    ensures NoDup(s) ==> NoDup(Toggle(s, x))
  {
    RemoveAllSpec(s, x);
    if x in s {
      if NoDup(s) {
        SubsequenceNoDup(RemoveAll(s, x), s);
      }
    } else {
      assert multiset(s + [x]) == multiset(s) + multiset{x};
    }
  }

  /** Toggling a value that is absent and then toggling it again restores the list exactly. */
  lemma ToggleTwiceAbsent(s: seq<string>, x: string)
    requires x !in s
    ensures Toggle(Toggle(s, x), x) == s
  {
    RemoveAllSpec(s, x);
    FilterExt(IsNot(x), IsNot(x), s + [x]);
    assert Filter(IsNot(x), s + [x]) == s by {
      FilterAppend(IsNot(x), s, [x]);
    }
  }

  /**
   * Toggling a present value twice on a duplicate-free list gives back the same
   * elements, still without duplicates; `x` moves to the end.
   */
  lemma ToggleTwicePresent(s: seq<string>, x: string)
    requires x in s && NoDup(s)
    ensures Toggle(Toggle(s, x), x) == RemoveAll(s, x) + [x]
    ensures multiset(Toggle(Toggle(s, x), x)) == multiset(s)
    ensures NoDup(Toggle(Toggle(s, x), x))
  {
    var t := RemoveAll(s, x);
    assert Toggle(s, x) == t;
    RemoveAllSpec(s, x);
    assert Toggle(t, x) == t + [x];
    SubsequenceNoDup(t, s);
    RestoreCount(s, t, x);
  }

  /** Putting back the one copy of `x` that RemoveAll dropped from a duplicate-free list restores its multiset. */
  lemma RestoreCount(s: seq<string>, t: seq<string>, x: string)
    requires x in s && NoDup(s) && t == RemoveAll(s, x)
    ensures multiset(t + [x]) == multiset(s)
  {
    RemoveAllSpec(s, x);
    var k :| 0 <= k < |s| && s[k] == x;
    NoDupCount(s, k);
    assert multiset(t + [x]) == multiset(t) + multiset{x};
    forall y ensures multiset(t + [x])[y] == multiset(s)[y] {
      if y == x {
        assert multiset(t)[x] == 0;
      }
    }
  }

  /** In a duplicate-free list the element at position k occurs exactly once. */
  lemma {:induction false} NoDupCount(s: seq<string>, k: int)
    requires NoDup(s) && 0 <= k < |s|
    ensures multiset(s)[s[k]] == 1
    decreases s
  {
    assert s == [s[0]] + s[1..];
    if k == 0 {
      assert s[0] !in s[1..];
    } else {
      NoDupCount(s[1..], k - 1);
    }
  }

  /** Toggling twice is not the identity on sequences: a present value that is not last moves. */
  lemma ToggleTwiceReorders()
    ensures Toggle(Toggle(["Engine 1", "Ladder 3"], "Engine 1"), "Engine 1") == ["Ladder 3", "Engine 1"]
  {
    var s := ["Engine 1", "Ladder 3"];
    assert "Engine 1" in s;
    assert Filter(IsNot("Engine 1"), s[1..]) == ["Ladder 3"];
    assert RemoveAll(s, "Engine 1") == ["Ladder 3"];
  }

  /** The add-button rule of `addTag` / `addCustomUnit`: the trimmed input is non-empty and new. */
  predicate Accepts(s: seq<string>, input: string) {
    Text.Trim(input) != "" && Text.Trim(input) !in s
  }

  /** The list after pressing "Add": the trimmed input appended if accepted, else unchanged. */
  function AddTrimmed(s: seq<string>, input: string): seq<string> {
    if Accepts(s, input) then s + [Text.Trim(input)] else s
  }

  /** The input box after pressing "Add": cleared exactly when the value was added. */
  function InputAfterAdd(s: seq<string>, input: string): string {
    if Accepts(s, input) then "" else input
  }

  /** Adding keeps a duplicate-free list duplicate-free and only ever appends a trimmed, non-blank value. */
  lemma AddTrimmedSpec(s: seq<string>, input: string)
    ensures NoDup(s) ==> NoDup(AddTrimmed(s, input))
    ensures AddTrimmed(s, input) == s || AddTrimmed(s, input) == s + [Text.Trim(input)]
    ensures AddTrimmed(s, input) != s <==> (InputAfterAdd(s, input) == "" && Accepts(s, input))
    ensures forall i :: |s| <= i < |AddTrimmed(s, input)| ==>
              AddTrimmed(s, input)[i] != "" && !Text.IsTrimmable(AddTrimmed(s, input)[i][0])
  {
  }

  /** `list.filter((_, i) => i !== k)`. */
  function RemoveAt<T>(s: seq<T>, k: int): (r: seq<T>)
    ensures 0 <= k < |s| ==> r == s[..k] + s[k + 1..]
    ensures !(0 <= k < |s|) ==> r == s
    decreases s
  {
    if s == [] then []
    else (if k == 0 then [] else [s[0]]) + RemoveAt(s[1..], k - 1)
  }
}
