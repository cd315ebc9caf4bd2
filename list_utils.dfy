/** The ordered-list utilities every section editor uses to reorder and
    remove entries, and the copy-then-assign step its field editors use. */
module ListUtils {

  /** What `moveItem` computes: the element at `from` is taken out and put
      back in so that it ends at position `to`. */
  function Moved<T>(a: seq<T>, from: nat, to: nat): (r: seq<T>)
    requires from < |a| && to < |a|
    ensures |r| == |a|
    ensures r[to] == a[from]
  {
    var rest := a[..from] + a[from + 1..];
    rest[..to] + [a[from]] + rest[to..]
  }

  /** `moveItem`: copy the list, splice the element out, splice it back in.
      On a fixed-length array the first splice shifts the tail left by one
      and the second shifts everything from `to` on right by one. */
  method MoveItem<T>(a: seq<T>, from: nat, to: nat) returns (r: seq<T>)
    requires from < |a| && to < |a|
    ensures r == Moved(a, from, to)
  {
    var b := new T[|a|](i requires 0 <= i < |a| => a[i]);
    var movedItem := b[from];
    assert b[..] == a;
    ShiftOut(b, from);
    ShiftIn(b, to, movedItem);
    r := b[..];
  }

  /** `splice(from, 1)` on a fixed-length array: the elements after `from`
      move one place left; the last slot is left as it was. */
  method ShiftOut<T>(b: array<T>, from: nat)
    requires from < b.Length
    modifies b
    ensures b[..b.Length - 1] == old(b[..from]) + old(b[from + 1..])
  {
    ghost var a := b[..];
    var k := from;
    while k < b.Length - 1
      invariant from <= k <= b.Length - 1
      invariant forall j :: 0 <= j < from ==> b[j] == a[j]
      invariant forall j :: from <= j < k ==> b[j] == a[j + 1]
      invariant forall j :: k <= j < b.Length ==> b[j] == a[j]
    {
      b[k] := b[k + 1];
      k := k + 1;
    }
    assert forall j :: 0 <= j < b.Length - 1 ==> b[j] == (a[..from] + a[from + 1..])[j];
  }

  /** `splice(to, 0, x)` on a fixed-length array whose last slot is free:
      the elements from `to` on move one place right and `x` goes to `to`. */
  method ShiftIn<T>(b: array<T>, to: nat, x: T)
    requires to < b.Length
    modifies b
    ensures b[..] == old(b[..b.Length - 1])[..to] + [x] + old(b[..b.Length - 1])[to..]
  {
    ghost var a := b[..b.Length - 1];
    var k := b.Length - 1;
    while k > to
      invariant to <= k <= b.Length - 1
      invariant forall j :: 0 <= j < k ==> b[j] == a[j]
      invariant forall j :: k < j < b.Length ==> b[j] == a[j - 1]
    {
      b[k] := b[k - 1];
      k := k - 1;
    }
    b[to] := x;
    assert forall j :: 0 <= j < b.Length ==> b[j] == (a[..to] + [x] + a[to..])[j];
  }

  /** `removeItem`: keep every element whose index differs from `index`.
      An index outside the list removes nothing. */
  function RemoveItem<T>(a: seq<T>, index: int): (r: seq<T>)
    ensures 0 <= index < |a| ==> r == a[..index] + a[index + 1..]
    ensures !(0 <= index < |a|) ==> r == a
  {
    if a == [] then []
    else
      var rest := RemoveItem(a[1..], index - 1);
      assert 1 <= index < |a| ==> a[1..][..index - 1] == a[1..index] && a[1..][index..] == a[index + 1..];
      (if index == 0 then [] else [a[0]]) + rest
  }

  /** `moveItemUp`: no change at index 0, otherwise the element swaps
      places with its predecessor. */
  function MoveItemUp<T>(a: seq<T>, index: nat): (r: seq<T>)
    requires index < |a|
    ensures index == 0 ==> r == a
    ensures 0 < index ==> r == a[index - 1 := a[index]][index := a[index - 1]]
    ensures multiset(r) == multiset(a)
  {
    if index == 0 then a
    else
      MovedToNeighbour(a, index, index - 1);
      MovedIsPermutation(a, index, index - 1);
      Moved(a, index, index - 1)
  }

  /** `moveItemDown`: no change at the last index, otherwise the element
      swaps places with its successor. */
  function MoveItemDown<T>(a: seq<T>, index: nat): (r: seq<T>)
    requires index < |a|
    ensures index == |a| - 1 ==> r == a
    ensures index < |a| - 1 ==> r == a[index := a[index + 1]][index + 1 := a[index]]
    ensures multiset(r) == multiset(a)
  {
    if index == |a| - 1 then a
    else
      MovedToNeighbour(a, index, index + 1);
      MovedIsPermutation(a, index, index + 1);
      Moved(a, index, index + 1)
  }

  /** Position by position, `Moved` keeps everything outside the range
      between `from` and `to` and shifts that range by one toward `from`. */
  lemma MovedAt<T>(a: seq<T>, from: nat, to: nat, k: nat)
    requires from < |a| && to < |a| && k < |a|
    ensures Moved(a, from, to)[k] ==
      if k == to then a[from]
      else if from < to && from <= k < to then a[k + 1]
      else if to < from && to < k <= from then a[k - 1]
      else a[k]
  {
  }

  lemma MovedToNeighbour<T>(a: seq<T>, from: nat, to: nat)
    requires from < |a| && to < |a|
    requires to == from + 1 || to + 1 == from
    ensures Moved(a, from, to) == a[from := a[to]][to := a[from]]
  {
    forall k | 0 <= k < |a|
      ensures Moved(a, from, to)[k] == a[from := a[to]][to := a[from]][k]
    {
      MovedAt(a, from, to, k);
    }
  }

  /** Moving an element is a permutation of the list. */
  lemma MovedIsPermutation<T>(a: seq<T>, from: nat, to: nat)
    requires from < |a| && to < |a|
    ensures multiset(Moved(a, from, to)) == multiset(a)
  {
    var rest := a[..from] + a[from + 1..];
    assert a == a[..from] + [a[from]] + a[from + 1..];
    assert rest == rest[..to] + rest[to..];
    calc {
      multiset(Moved(a, from, to));
      multiset(rest[..to]) + multiset{a[from]} + multiset(rest[to..]);
      multiset(rest) + multiset{a[from]};
      multiset(a[..from]) + multiset(a[from + 1..]) + multiset{a[from]};
      multiset(a);
    }
  }

  /** Apart from the moved element, the others keep their relative order:
      deleting the element at its new place gives the list without it. */
  lemma MovedKeepsOthersInOrder<T>(a: seq<T>, from: nat, to: nat)
    requires from < |a| && to < |a|
    ensures RemoveItem(Moved(a, from, to), to) == RemoveItem(a, from)
  {
    var rest := a[..from] + a[from + 1..];
    var m := Moved(a, from, to);
    assert m[..to] == rest[..to];
    assert m[to + 1..] == rest[to..];
    assert rest == rest[..to] + rest[to..];
  }

  /** Removing one in-range element leaves exactly the other elements. */
  lemma RemoveItemDropsOne<T>(a: seq<T>, index: nat)
    requires index < |a|
    ensures |RemoveItem(a, index)| == |a| - 1
    ensures multiset(RemoveItem(a, index)) + multiset{a[index]} == multiset(a)
  {
    var r := RemoveItem(a, index);
    assert r == a[..index] + a[index + 1..];
    SplitMultiset(a, index);
  }

  lemma SplitMultiset<T>(a: seq<T>, index: nat)
    requires index < |a|
    ensures multiset(a[..index] + a[index + 1..]) + multiset{a[index]} == multiset(a)
  {
    assert a == a[..index] + [a[index]] + a[index + 1..];
  }

  /** Moving an element down and then moving it back up restores the list. */
  lemma UpUndoesDown<T>(a: seq<T>, index: nat)
    requires index + 1 < |a|
    ensures MoveItemUp(MoveItemDown(a, index), index + 1) == a
  {
    var b := MoveItemDown(a, index);
    assert b == a[index := a[index + 1]][index + 1 := a[index]];
    SwapBack(a, index);
  }

  /** Moving an element up and then moving it back down restores the list. */
  lemma DownUndoesUp<T>(a: seq<T>, index: nat)
    requires 0 < index < |a|
    ensures MoveItemDown(MoveItemUp(a, index), index - 1) == a
  {
    var b := MoveItemUp(a, index);
    assert b == a[index - 1 := a[index]][index := a[index - 1]];
    SwapBack(a, index - 1);
  }

  /** Swapping two neighbours twice gives back the list. */
  lemma SwapBack<T>(a: seq<T>, i: nat)
    requires i + 1 < |a|
    ensures var b := a[i := a[i + 1]][i + 1 := a[i]];
      b[i := b[i + 1]][i + 1 := b[i]] == a
  {
    var b := a[i := a[i + 1]][i + 1 := a[i]];
    var c := b[i := b[i + 1]][i + 1 := b[i]];
    assert forall k :: 0 <= k < |a| ==> c[k] == a[k];
  }

  /** The field editors' first step: copy the list into a fresh array and
      assign one element of the copy. */
  method ReplaceAt<T>(a: seq<T>, index: nat, x: T) returns (r: seq<T>)
    requires index < |a|
    ensures |r| == |a| && r[index] == x
    ensures forall j :: 0 <= j < |a| && j != index ==> r[j] == a[j]
  {
    var b := new T[|a|](i requires 0 <= i < |a| => a[i]);
    b[index] := x;
    r := b[..];
  }
}
