/** The in-memory cart: an ordered list of items the shell never looks inside. */
module Cart {

  /** The cart after an item is added (the spread `[...cart, item]`). */
  function Added<Item>(cart: seq<Item>, item: Item): (r: seq<Item>)
    ensures |r| == |cart| + 1
    ensures r[..|cart|] == cart && r[|cart|] == item
  {
    cart + [item]
  }

  /**
   * The elements of `s` whose positions differ from `index`, where `s[0]`
   * stands at position `start` of the list being filtered.
   */
  function KeepOthers<Item>(s: seq<Item>, index: int, start: int): seq<Item>
    decreases |s|
  {
    if s == [] then []
    else (if start == index then [] else [s[0]]) + KeepOthers(s[1..], index, start + 1)
  }

  /** The cart after removing by position (`filter((_, i) => i !== index)`). */
  function Removed<Item>(cart: seq<Item>, index: int): seq<Item>
  {
    KeepOthers(cart, index, 0)
  }

  /** Filtering by position drops exactly the element at `index`, if it is in range. */
  lemma {:induction false} KeepOthersDropsAt<Item>(s: seq<Item>, index: int, start: int)
    ensures start <= index < start + |s| ==>
      KeepOthers(s, index, start) == s[..index - start] + s[index - start + 1..]
    ensures !(start <= index < start + |s|) ==> KeepOthers(s, index, start) == s
    decreases |s|
  {
    if s != [] {
      var rest := KeepOthers(s[1..], index, start + 1);
      KeepOthersDropsAt(s[1..], index, start + 1);
      if start == index {
        assert KeepOthers(s, index, start) == rest;
        assert rest == s[1..];
      } else {
        assert KeepOthers(s, index, start) == [s[0]] + rest;
        if start < index < start + |s| {
          var k := index - start;
          assert rest == s[1..][..k - 1] + s[1..][k..];
          assert s[1..][..k - 1] == s[1..k];
          assert s[1..][k..] == s[k + 1..];
          assert [s[0]] + s[1..k] == s[..k];
        } else {
          assert rest == s[1..];
          assert [s[0]] + s[1..] == s;
        }
      }
    }
  }

  /** Removing an in-range position deletes that one element and keeps the rest in order. */
  lemma RemovedInRange<Item>(cart: seq<Item>, index: int)
    requires 0 <= index < |cart|
    ensures Removed(cart, index) == cart[..index] + cart[index + 1..]
    ensures |Removed(cart, index)| == |cart| - 1
  {
    KeepOthersDropsAt(cart, index, 0);
  }

  /** Removing any other position, negative ones included, leaves the cart as it was. */
  lemma RemovedOutOfRange<Item>(cart: seq<Item>, index: int)
    requires index < 0 || index >= |cart|
    ensures Removed(cart, index) == cart
  {
    KeepOthersDropsAt(cart, index, 0);
  }

  /** Adding `a` then `b` to an empty cart and removing position 0 leaves `[b]`;
      removing position 99 of a two-item cart changes nothing. */
  lemma AddAddRemove<Item>(a: Item, b: Item)
    ensures Removed(Added(Added([], a), b), 0) == [b]
    ensures Removed(Added(Added([], a), b), 99) == [a, b]
  {
    var two := Added(Added([], a), b);
    assert two == [a, b];
    RemovedInRange(two, 0);
    RemovedOutOfRange(two, 99);
  }

  /** Adding never merges: every add adds exactly one more copy of the item,
      whether or not it is already present. */
  lemma AddedKeepsDuplicates<Item>(cart: seq<Item>, item: Item)
    ensures multiset(Added(cart, item))[item] == multiset(cart)[item] + 1
  {
  }
}
