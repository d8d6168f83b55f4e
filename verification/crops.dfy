/**
 * The crop-preference selection of the sign-in page's last step
 * (src/app/auth/page.tsx, `handleCropToggle`): clicking a crop removes it
 * from the selection when it is there and appends it otherwise.
 */
module CropSelection {

  /** `s.filter(c => c !== id)`: every other id, in the original order. */
  function Without(s: seq<string>, id: string): (r: seq<string>)
    ensures forall x :: x in r <==> x in s && x != id
    ensures |r| <= |s|
    ensures id !in s ==> r == s
  {
    if s == [] then []
    else if s[0] == id then Without(s[1..], id)
    else [s[0]] + Without(s[1..], id)
  }

  /** The updater passed to `setSelectedCrops` by `handleCropToggle`. */
  function ToggleCrop(prev: seq<string>, id: string): seq<string>
  {
    if id in prev then Without(prev, id) else prev + [id]
  }

  predicate NoDuplicates(s: seq<string>)
  {
    forall i, j :: 0 <= i < j < |s| ==> s[i] != s[j]
  }

  /**
   * A toggle flips the membership of `id` and keeps the membership of
   * every other id.
   */
  lemma ToggleFlipsMembership(prev: seq<string>, id: string)
    ensures id in ToggleCrop(prev, id) <==> id !in prev
    ensures forall x :: x != id ==> (x in ToggleCrop(prev, id) <==> x in prev)
  {
  }

  /** Filtering an id out of a list that ends with it drops that last element. */
  lemma {:induction false} WithoutAppended(s: seq<string>, id: string)
    requires id !in s
    ensures Without(s + [id], id) == s
  {
    if s == [] {
      assert Without([id], id) == Without([], id);
    } else {
      assert (s + [id])[1..] == s[1..] + [id];
      WithoutAppended(s[1..], id);
    }
  }

  /** Selecting a crop and then deselecting it restores the exact list. */
  lemma ToggleTwiceRestores(prev: seq<string>, id: string)
    requires id !in prev
    ensures ToggleCrop(ToggleCrop(prev, id), id) == prev
  {
    WithoutAppended(prev, id);
  }

  /**
   * Deselecting and reselecting a crop keeps the same set of crops but moves
   * that crop to the end of the list.
   */
  lemma ToggleTwiceMovesToEnd(prev: seq<string>, id: string)
    requires id in prev
    ensures ToggleCrop(ToggleCrop(prev, id), id) == Without(prev, id) + [id]
    ensures forall x :: x in ToggleCrop(ToggleCrop(prev, id), id) <==> x in prev
  {
  }

  /** Removing an id keeps a duplicate-free list duplicate-free. */
  lemma {:induction false} WithoutKeepsNoDuplicates(s: seq<string>, id: string)
    requires NoDuplicates(s)
    ensures NoDuplicates(Without(s, id))
  {
    if s != [] {
      assert NoDuplicates(s[1..]);
      WithoutKeepsNoDuplicates(s[1..], id);
      if s[0] != id {
        var r := Without(s, id);
        assert r == [s[0]] + Without(s[1..], id);
        assert s[0] !in s[1..];
        forall i, j | 0 <= i < j < |r| ensures r[i] != r[j] {
          if i == 0 {
            assert r[j] in Without(s[1..], id);
          }
        }
      }
    }
  }

  /** A toggle keeps a duplicate-free selection duplicate-free. */
  lemma ToggleKeepsNoDuplicates(prev: seq<string>, id: string)
    requires NoDuplicates(prev)
    ensures NoDuplicates(ToggleCrop(prev, id))
  {
    if id in prev {
      WithoutKeepsNoDuplicates(prev, id);
    }
  }

  /** In a duplicate-free list, removing a present id shortens it by exactly one. */
  lemma {:induction false} WithoutRemovesOne(s: seq<string>, id: string)
    requires NoDuplicates(s) && id in s
    ensures |Without(s, id)| == |s| - 1
  {
    assert NoDuplicates(s[1..]);
    if s[0] == id {
      assert id !in s[1..];
    } else {
      WithoutRemovesOne(s[1..], id);
    }
  }

  /** The size of a duplicate-free selection changes by one on each toggle. */
  lemma ToggleChangesSizeByOne(prev: seq<string>, id: string)
    requires NoDuplicates(prev)
    ensures |ToggleCrop(prev, id)| == if id in prev then |prev| - 1 else |prev| + 1
  {
    if id in prev {
      WithoutRemovesOne(prev, id);
    }
  }
}
