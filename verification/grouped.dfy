/** The grouped suggestion filter and the flattened index space over groups
    (the suggestions-view variant of the widget). */
module Grouped {
  import opened Text
  import opened Suggest
  import opened Options

  /** One titled group of candidate strings. */
  datatype Group = Group(title: string, items: seq<string>)

  /** All items of all groups, groups taken in order. */
  function Flatten(groups: seq<Group>): seq<string>
    decreases |groups|
  {
    if groups == [] then [] else groups[0].items + Flatten(groups[1..])
  }

  /** Flattening a concatenation flattens each part. */
  lemma {:induction false} FlattenAppend(a: seq<Group>, b: seq<Group>)
    ensures Flatten(a + b) == Flatten(a) + Flatten(b)
    decreases |a|
  {
    if a == [] {
      assert a + b == b;
    } else {
      assert (a + b)[1..] == a[1..] + b;
      FlattenAppend(a[1..], b);
    }
  }

  /** `groups.reduce((acc, g) => acc + g.items.length, 0)`, folded from the left. */
  function TotalItems(groups: seq<Group>): (n: nat)
    ensures n == |Flatten(groups)|
    decreases |groups|
  {
    if groups == [] then 0
    else
      var front := groups[..|groups| - 1];
      var last := groups[|groups| - 1];
      assert groups == front + [last];
      FlattenAppend(front, [last]);
      assert Flatten([last]) == last.items + Flatten([]);
      TotalItems(front) + |last.items|
  }

  /** The titles of the groups, in order. */
  function Titles(groups: seq<Group>): seq<string>
  {
    seq(|groups|, i requires 0 <= i < |groups| => groups[i].title)
  }

  /** `groups.map(group => ({...group, items: group.items.filter(...)}))`. */
  function FilterEach(query: string, groups: seq<Group>): (r: seq<Group>)
    ensures |r| == |groups|
    ensures forall i :: 0 <= i < |r| ==>
                          r[i].title == groups[i].title && r[i].items == Keep(groups[i].items, query)
  {
    seq(|groups|, i requires 0 <= i < |groups| => Group(groups[i].title, Keep(groups[i].items, query)))
  }

  /** `.filter(group => group.items.length > 0)`. Only empty groups are
      dropped, so the flattened items, with their multiplicities and order,
      are exactly those of `groups`. */
  function NonEmptyGroups(groups: seq<Group>): (r: seq<Group>)
    ensures IsSubseq(r, groups)
    ensures forall k :: 0 <= k < |r| ==> r[k].items != []
    ensures forall k :: 0 <= k < |groups| && groups[k].items != [] ==> groups[k] in r
    ensures Flatten(r) == Flatten(groups)
    decreases |groups|
  {
    if groups == [] then []
    else if groups[0].items != [] then
      var rest := NonEmptyGroups(groups[1..]);
      assert ([groups[0]] + rest)[1..] == rest;
      [groups[0]] + rest
    else NonEmptyGroups(groups[1..])
  }

  /** The grouped filter: no groups at all for a blank query; otherwise each
      group filtered on its own, the groups left empty dropped, the rest kept
      in order with their titles. */
  function FilterGroups(query: string, groups: seq<Group>): (r: seq<Group>)
    ensures IsBlank(query) ==> r == []
    ensures forall k :: 0 <= k < |r| ==> r[k].items != []
    ensures IsSubseq(r, FilterEach(query, groups))
    ensures !IsBlank(query) ==>
              forall k :: 0 <= k < |groups| && Keep(groups[k].items, query) != [] ==>
                            Group(groups[k].title, Keep(groups[k].items, query)) in r
  {
    if IsBlank(query) then []
    else
      var each := FilterEach(query, groups);
      assert forall k :: 0 <= k < |groups| ==> each[k] == Group(groups[k].title, Keep(groups[k].items, query));
      NonEmptyGroups(each)
  }

  /** Filtering every group flattens to filtering the flattened groups. */
  lemma {:induction false} FlattenFilterEach(query: string, groups: seq<Group>)
    ensures Flatten(FilterEach(query, groups)) == Keep(Flatten(groups), query)
    decreases |groups|
  {
    if groups != [] {
      FlattenFilterEach(query, groups[1..]);
      assert FilterEach(query, groups)[1..] == FilterEach(query, groups[1..]);
      KeepAppend(groups[0].items, Flatten(groups[1..]), query);
    }
  }

  /** The items the grouped filter shows, read in display order, are exactly
      what the flat filter gives on all items read in the same order. */
  lemma GroupedAgreesWithFlat(query: string, groups: seq<Group>)
    ensures Flatten(FilterGroups(query, groups)) == Filter(query, Flatten(groups))
    ensures TotalItems(FilterGroups(query, groups)) == |Filter(query, Flatten(groups))|
  {
    if !IsBlank(query) {
      FlattenFilterEach(query, groups);
    }
  }

  /** Titles of an order-preserving selection of groups are an
      order-preserving selection of the titles. */
  lemma {:induction false} SubseqTitles(a: seq<Group>, b: seq<Group>)
    requires IsSubseq(a, b)
    ensures IsSubseq(Titles(a), Titles(b))
    decreases |b|
  {
    if a != [] {
      assert Titles(b)[1..] == Titles(b[1..]);
      if a[0] == b[0] && IsSubseq(a[1..], b[1..]) {
        SubseqTitles(a[1..], b[1..]);
        assert Titles(a)[1..] == Titles(a[1..]);
      } else {
        SubseqTitles(a, b[1..]);
      }
    }
  }

  /** The surviving groups' titles are an order-preserving selection of the input titles. */
  lemma FilterGroupsTitles(query: string, groups: seq<Group>)
    ensures IsSubseq(Titles(FilterGroups(query, groups)), Titles(groups))
  {
    SubseqTitles(FilterGroups(query, groups), FilterEach(query, groups));
    assert Titles(FilterEach(query, groups)) == Titles(groups);
  }

  /** The hover index of item `itemIndex` of group `groupIndex`: the sizes of
      the earlier groups plus the position inside its group. */
  function GlobalIndex(groups: seq<Group>, groupIndex: nat, itemIndex: nat): int
    requires groupIndex <= |groups|
  {
    TotalItems(groups[..groupIndex]) + itemIndex
  }

  /** The hover index of an item names that very item in the flattened list. */
  lemma HoverIndexResolves(groups: seq<Group>, groupIndex: nat, itemIndex: nat)
    requires groupIndex < |groups| && itemIndex < |groups[groupIndex].items|
    ensures 0 <= GlobalIndex(groups, groupIndex, itemIndex) < TotalItems(groups)
    ensures Flatten(groups)[GlobalIndex(groups, groupIndex, itemIndex)] == groups[groupIndex].items[itemIndex]
  {
    var before := groups[..groupIndex];
    var after := groups[groupIndex + 1..];
    assert groups == before + ([groups[groupIndex]] + after);
    FlattenAppend(before, [groups[groupIndex]] + after);
    assert Flatten([groups[groupIndex]] + after) == groups[groupIndex].items + Flatten(after);
  }

  /** The Enter handler's nested walk: count through the groups' items in
      order and return the item whose running position equals `selected`.
      It resolves exactly the flattened position `selected`, and nothing when
      no item has that position. */
  method WalkToIndex(groups: seq<Group>, selected: int) returns (found: Option<string>)
    ensures found.Some? <==> 0 <= selected < |Flatten(groups)|
    ensures found.Some? ==> found.value == Flatten(groups)[selected]
  {
    var currentIndex := 0;
    var g := 0;
    while g < |groups|
      invariant 0 <= g <= |groups|
      invariant currentIndex == TotalItems(groups[..g])
      invariant selected < 0 || selected >= currentIndex
    {
      var items := groups[g].items;
      var k := 0;
      while k < |items|
        invariant 0 <= k <= |items|
        invariant currentIndex == TotalItems(groups[..g]) + k
        invariant selected < 0 || selected >= currentIndex
      {
        if currentIndex == selected {
          HoverIndexResolves(groups, g, k);
          return Some(items[k]);
        }
        currentIndex := currentIndex + 1;
        k := k + 1;
      }
      assert groups[..g + 1] == groups[..g] + [groups[g]];
      FlattenAppend(groups[..g], [groups[g]]);
      assert Flatten([groups[g]]) == groups[g].items + Flatten([]);
      g := g + 1;
    }
    assert groups[..g] == groups;
    return None;
  }
}
