/**
 * The toast queue of the notification provider: an ordered list of toasts
 * that grows by appending a toast under a fresh id and shrinks by filtering
 * out every toast with a given id.
 */
module ToastContainer {
  import opened Wrappers

  datatype Variant = Info | Success | Warning | Error

  /** What a caller of `addToast` passes: a toast without its id. */
  datatype ToastInput = ToastInput(
    title: string,
    description: Option<string>,
    variant: Option<Variant>,
    duration: Option<int>)

  datatype Toast = Toast(
    id: string,
    title: string,
    description: Option<string>,
    variant: Option<Variant>,
    duration: Option<int>)

  /** `{ ...toast, id }`: the caller's fields plus the new id. */
  function WithId(t: ToastInput, id: string): (r: Toast)
    ensures r.id == id && r.title == t.title && r.description == t.description
    ensures r.variant == t.variant && r.duration == t.duration
  {
    Toast(id, t.title, t.description, t.variant, t.duration)
  }

  /** The ids of a list of toasts. */
  function Ids(s: seq<Toast>): set<string> {
    set i | 0 <= i < |s| :: s[i].id
  }

  /** The ids are usable as list keys: no two toasts share one. */
  predicate DistinctIds(s: seq<Toast>) {
    forall i, j :: 0 <= i < j < |s| ==> s[i].id != s[j].id
  }

  /** `prev.filter(t => t.id !== id)`. */
  function Remove(s: seq<Toast>, id: string): (r: seq<Toast>)
    ensures |r| <= |s|
    ensures forall t :: t in r <==> t in s && t.id != id
    decreases |s|
  {
    if s == [] then []
    else (if s[0].id != id then [s[0]] else []) + Remove(s[1..], id)
  }

  /** `r` is `s` with some elements left out and the rest in their order. */
  predicate Subsequence(r: seq<Toast>, s: seq<Toast>)
    decreases |s|
  {
    if r == [] then true
    else if s == [] then false
    else if r[0] == s[0] then Subsequence(r[1..], s[1..])
    else Subsequence(r, s[1..])
  }

  /** Removal keeps the survivors in their original relative order. */
  lemma {:induction false} RemoveIsSubsequence(s: seq<Toast>, id: string)
    ensures Subsequence(Remove(s, id), s)
    decreases |s|
  {
    if s != [] {
      RemoveIsSubsequence(s[1..], id);
      var tail := Remove(s[1..], id);
      if s[0].id == id {
        assert Remove(s, id) == tail;
        SubsequenceConsRight(tail, s[0], s[1..]);
        assert [s[0]] + s[1..] == s;
      } else {
        var r := [s[0]] + tail;
        assert r[1..] == tail;
      }
    }
  }

  /** A subsequence of `s` is a subsequence of `[x] + s`. */
  lemma {:induction false} SubsequenceConsRight(r: seq<Toast>, x: Toast, s: seq<Toast>)
    requires Subsequence(r, s)
    ensures Subsequence(r, [x] + s)
    decreases |s|, 1
  {
    var xs := [x] + s;
    assert xs[1..] == s;
    if r != [] && r[0] == x {
      SubsequenceTail(r, s);
    }
  }

  /** Dropping the head of a subsequence leaves a subsequence. */
  lemma {:induction false} SubsequenceTail(r: seq<Toast>, s: seq<Toast>)
    requires r != [] && Subsequence(r, s)
    ensures Subsequence(r[1..], s)
    decreases |s|, 0
  {
    assert s != [];
    if r[0] == s[0] {
      SubsequenceConsRight(r[1..], s[0], s[1..]);
    } else {
      SubsequenceTail(r, s[1..]);
      SubsequenceConsRight(r[1..], s[0], s[1..]);
    }
    assert [s[0]] + s[1..] == s;
  }

  /** Filtering distributes over concatenation. */
  lemma {:induction false} RemoveAppend(a: seq<Toast>, b: seq<Toast>, id: string)
    ensures Remove(a + b, id) == Remove(a, id) + Remove(b, id)
    decreases |a|
  {
    if a == [] {
      assert a + b == b;
    } else {
      assert (a + b)[0] == a[0];
      assert (a + b)[1..] == a[1..] + b;
      RemoveAppend(a[1..], b, id);
    }
  }

  /** Removing an id that no toast has leaves the list unchanged. */
  lemma {:induction false} RemoveAbsent(s: seq<Toast>, id: string)
    requires id !in Ids(s)
    ensures Remove(s, id) == s
    decreases |s|
  {
    if s != [] {
      assert s[0].id in Ids(s);
      assert Ids(s[1..]) <= Ids(s) by {
        forall x | x in Ids(s[1..]) ensures x in Ids(s) {
          var i :| 0 <= i < |s[1..]| && s[1..][i].id == x;
          assert s[i + 1].id == x;
        }
      }
      RemoveAbsent(s[1..], id);
      assert [s[0]] + s[1..] == s;
    }
  }

  /** After a removal no toast carries the id. */
  lemma RemoveLeavesNoId(s: seq<Toast>, id: string)
    ensures id !in Ids(Remove(s, id))
  {
  }

  /** Removing twice is removing once. */
  lemma RemoveIdempotent(s: seq<Toast>, id: string)
    ensures Remove(Remove(s, id), id) == Remove(s, id)
  {
    RemoveLeavesNoId(s, id);
    RemoveAbsent(Remove(s, id), id);
  }

  /** Appending a toast under a fresh id, then removing that id, restores the list. */
  lemma AddThenRemove(s: seq<Toast>, t: ToastInput, id: string)
    requires id !in Ids(s)
    ensures Remove(s + [WithId(t, id)], id) == s
  {
    RemoveAppend(s, [WithId(t, id)], id);
    RemoveAbsent(s, id);
    assert Remove([WithId(t, id)], id) == [];
  }

  /** Appending under a fresh id keeps the ids pairwise distinct. */
  lemma AppendFreshKeepsDistinct(s: seq<Toast>, t: Toast)
    requires DistinctIds(s) && t.id !in Ids(s)
    ensures DistinctIds(s + [t])
  {
    var r := s + [t];
    forall i, j | 0 <= i < j < |r| ensures r[i].id != r[j].id {
      if j == |s| {
        assert r[i].id == s[i].id && s[i].id in Ids(s);
      }
    }
  }

  /** The survivors of a removal are still pairwise distinct. */
  lemma {:induction false} RemoveKeepsDistinct(s: seq<Toast>, id: string)
    requires DistinctIds(s)
    ensures DistinctIds(Remove(s, id))
    decreases |s|
  {
    if s != [] {
      RemoveKeepsDistinct(s[1..], id);
      var tail := Remove(s[1..], id);
      if s[0].id != id {
        var r := [s[0]] + tail;
        forall j | 0 < j < |r| ensures r[0].id != r[j].id {
          assert r[j] in tail;
          var k :| 0 <= k < |s[1..]| && s[1..][k] == r[j];
          assert s[k + 1] == r[j];
        }
      }
    }
  }

  /** The provider's state: the list of toasts on screen, oldest first. */
  class ToastProvider {
    var toasts: seq<Toast>

    constructor ()
      ensures toasts == []
    {
      toasts := [];
    }

    /**
     * `addToast`: the id comes from `crypto.randomUUID()`, taken here as a
     * parameter; when it is fresh, the ids stay distinct.
     */
    method AddToast(t: ToastInput, id: string)
      modifies this
      ensures toasts == old(toasts) + [WithId(t, id)]
      ensures DistinctIds(old(toasts)) && id !in Ids(old(toasts)) ==> DistinctIds(toasts)
    {
      if DistinctIds(toasts) && id !in Ids(toasts) {
        AppendFreshKeepsDistinct(toasts, WithId(t, id));
      }
      toasts := toasts + [WithId(t, id)];
    }

    /** `removeToast`, the `onClose` every rendered toast receives. */
    method RemoveToast(id: string)
      modifies this
      ensures toasts == Remove(old(toasts), id)
      ensures Subsequence(toasts, old(toasts))
      ensures id !in Ids(toasts)
      ensures DistinctIds(old(toasts)) ==> DistinctIds(toasts)
    {
      RemoveIsSubsequence(toasts, id);
      RemoveLeavesNoId(toasts, id);
      if DistinctIds(toasts) {
        RemoveKeepsDistinct(toasts, id);
      }
      toasts := Remove(toasts, id);
    }
  }
}
