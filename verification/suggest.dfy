/** The flat suggestion filter shared by every widget:
    `query.trim() === "" ? [] : items.filter(item => item.toLowerCase().includes(query.toLowerCase()))`. */
module Suggest {
  import opened Text

  /** `a` is `b` with some elements left out and the rest kept in order. */
  predicate IsSubseq<T(==)>(a: seq<T>, b: seq<T>)
    decreases |b|
  {
    || a == []
    || (&& b != []
        && ((a[0] == b[0] && IsSubseq(a[1..], b[1..])) || IsSubseq(a, b[1..])))
  }

  /** A subsequence never holds an element more often than its source. */
  lemma {:induction false} SubseqMultiset<T>(a: seq<T>, b: seq<T>)
    requires IsSubseq(a, b)
    ensures multiset(a) <= multiset(b)
    decreases |b|
  {
    if a != [] {
      assert b == [b[0]] + b[1..];
      if a[0] == b[0] && IsSubseq(a[1..], b[1..]) {
        SubseqMultiset(a[1..], b[1..]);
        assert a == [a[0]] + a[1..];
      } else {
        SubseqMultiset(a, b[1..]);
      }
    }
  }

  /** `item.toLowerCase().includes(query.toLowerCase())`. */
  predicate Matches(item: string, query: string) {
    Includes(LowerStr(item), LowerStr(query))
  }

  /** Matching ignores the case of the query. */
  lemma MatchesLowerQuery(item: string, query: string)
    ensures Matches(item, LowerStr(query)) <==> Matches(item, query)
  {
    LowerStrIdempotent(query);
  }

  /** Every string matches itself. */
  lemma MatchesItself(x: string)
    ensures Matches(x, x)
  {
    OccurrenceIncluded(LowerStr(x), LowerStr(x), 0);
  }

  /** A string matching a non-blank query is not blank: the query's first
      character that is not white space occurs in it, up to case. */
  lemma MatchNotBlank(item: string, query: string)
    requires Matches(item, query) && !IsBlank(query)
    ensures !IsBlank(item)
  {
    var j :| 0 <= j < |query| && !IsSpace(query[j]);
    IncludesIffOccurs(LowerStr(item), LowerStr(query));
    var i :| OccursAt(LowerStr(item), LowerStr(query), i);
    assert LowerStr(item)[i + j] == LowerStr(query)[j];
    SpaceLower(query[j]);
    SpaceLower(item[i + j]);
    NotBlankWithText(item, i + j);
  }

  /** `items.filter(item => Matches(item, query))`: the matching items, each as
      often as in `items`, in their original order. */
  function Keep(items: seq<string>, query: string): (r: seq<string>)
    ensures IsSubseq(r, items)
    ensures forall k :: 0 <= k < |r| ==> Matches(r[k], query)
  {
    if items == [] then []
    else if Matches(items[0], query) then [items[0]] + Keep(items[1..], query)
    else Keep(items[1..], query)
  }

  /** `Keep` holds every matching item as often as `items` does, and nothing else. */
  lemma {:induction false} KeepCounts(items: seq<string>, query: string)
    ensures forall x :: multiset(Keep(items, query))[x] ==
                        (if Matches(x, query) then multiset(items)[x] else 0)
    decreases |items|
  {
    if items != [] {
      assert items == [items[0]] + items[1..];
      KeepCounts(items[1..], query);
    }
  }

  /** Filtering a concatenation filters each part. */
  lemma {:induction false} KeepAppend(a: seq<string>, b: seq<string>, query: string)
    ensures Keep(a + b, query) == Keep(a, query) + Keep(b, query)
    decreases |a|
  {
    if a != [] {
      assert (a + b)[1..] == a[1..] + b;
      KeepAppend(a[1..], b, query);
    } else {
      assert a + b == b;
    }
  }

  /** A subsequence holding exactly the matching elements, with their
      multiplicities, can only be the result of `Keep`. */
  lemma {:induction false} KeepUnique(items: seq<string>, query: string, r: seq<string>)
    requires IsSubseq(r, items)
    requires forall x :: multiset(r)[x] == if Matches(x, query) then multiset(items)[x] else 0
    ensures r == Keep(items, query)
    decreases |items|
  {
    if items == [] {
      assert multiset(r) == multiset{};
    } else {
      var y := items[0];
      var rest := items[1..];
      assert items == [y] + rest;
      if r != [] {
        assert r[0] in multiset(r);
        assert r == [r[0]] + r[1..];
      }
      if Matches(y, query) {
        assert multiset(r)[y] == multiset(items)[y] > 0;
        if !(r[0] == y && IsSubseq(r[1..], rest)) {
          SubseqMultiset(r, rest);
          assert false;
        }
        assert r[0] == y && IsSubseq(r[1..], rest);
        forall x ensures multiset(r[1..])[x] == if Matches(x, query) then multiset(rest)[x] else 0 {
          assert multiset(r) == multiset{y} + multiset(r[1..]);
        }
        KeepUnique(rest, query, r[1..]);
      } else {
        if r != [] {
          assert Matches(r[0], query);
        }
        assert IsSubseq(r, rest);
        forall x ensures multiset(r)[x] == if Matches(x, query) then multiset(rest)[x] else 0 {
          if x != y {
            assert multiset(items)[x] == multiset(rest)[x];
          }
        }
        KeepUnique(rest, query, r);
      }
    }
  }

  /** The flat filter of every widget: nothing for a blank query (not "show
      all"); otherwise exactly the items whose lower-cased form contains the
      lower-cased, untrimmed query, in input order. */
  function Filter(query: string, items: seq<string>): (r: seq<string>)
    ensures IsBlank(query) ==> r == []
    ensures IsSubseq(r, items)
    ensures forall k :: 0 <= k < |r| ==> Matches(r[k], query)
  {
    if IsBlank(query) then [] else Keep(items, query)
  }

  /** The filter holds each item as often as `items` does when it matches a
      non-blank query, and not at all otherwise. */
  lemma FilterCounts(query: string, items: seq<string>)
    ensures forall x :: multiset(Filter(query, items))[x] ==
                        (if !IsBlank(query) && Matches(x, query) then multiset(items)[x] else 0)
  {
    if !IsBlank(query) {
      KeepCounts(items, query);
    }
  }

  /** The contract of `Filter` determines its result: any order-preserving
      selection of `items` holding exactly the matching items is the filter. */
  lemma FilterCharacterized(query: string, items: seq<string>, r: seq<string>)
    requires IsSubseq(r, items)
    requires forall x :: multiset(r)[x] ==
                         (if !IsBlank(query) && Matches(x, query) then multiset(items)[x] else 0)
    ensures r == Filter(query, items)
  {
    if IsBlank(query) {
      assert multiset(r) == multiset{};
    } else {
      KeepUnique(items, query, r);
    }
  }

  /** An item is suggested exactly when it is in the list and matches a non-blank query. */
  lemma FilterMembership(query: string, items: seq<string>, x: string)
    ensures x in Filter(query, items) <==> !IsBlank(query) && x in items && Matches(x, query)
  {
    var r := Filter(query, items);
    FilterCounts(query, items);
    assert x in r <==> multiset(r)[x] > 0;
    assert x in items <==> multiset(items)[x] > 0;
  }

  /** Filtering is case-insensitive in the query as a whole. */
  lemma FilterLowerQuery(query: string, items: seq<string>)
    ensures Filter(LowerStr(query), items) == Filter(query, items)
  {
    BlankLowerStr(query);
    var r := Filter(query, items);
    FilterCounts(query, items);
    forall x ensures multiset(r)[x] ==
      if !IsBlank(LowerStr(query)) && Matches(x, LowerStr(query)) then multiset(items)[x] else 0
    {
      MatchesLowerQuery(x, query);
    }
    FilterCharacterized(LowerStr(query), items, r);
  }

  /** Filtering a concatenation filters each part. */
  lemma FilterAppend(query: string, a: seq<string>, b: seq<string>)
    ensures Filter(query, a + b) == Filter(query, a) + Filter(query, b)
  {
    if !IsBlank(query) {
      KeepAppend(a, b, query);
    }
  }

  /** A suggested item, used as the query, suggests itself again. */
  lemma SuggestedItemSuggestsItself(query: string, items: seq<string>, x: string)
    requires x in Filter(query, items)
    ensures x in Filter(x, items)
  {
    FilterMembership(query, items, x);
    MatchNotBlank(x, query);
    MatchesItself(x);
    FilterMembership(x, items, x);
  }
}
