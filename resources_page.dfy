/**
 * Frontend/src/pages/Resources.jsx: the listing page's category filter,
 * its comparator sort and the counts on the category buttons.
 *
 * `Array.prototype.sort` is stable, so for a comparator that orders by a
 * numeric key its result is ordered by that key and keeps the order of the
 * listings of each key; `StableOrderUnique` shows that only one order does
 * both.  The model computes it with an insertion sort on the same array.
 */
module ResourcesPage {

  /** The fields of a fetched resource that the page filters and sorts on. */
  datatype Listing = Listing(id: string, resourceType: string, rentPrice: real, rating: real, views: real)

  /**
   * The comparator of the sort, as a key: `cmp(a, b)` has the sign of
   * `SortKey(sortBy, a) - SortKey(sortBy, b)`.  "newest" and "oldest"
   * compare dates built from `uploadedAt`, a path the schema does not have:
   * both dates are invalid, the difference is NaN and the sort reads it as
   * 0, exactly like the default branch.
   */
  function SortKey(sortBy: string, r: Listing): real
  {
    if sortBy == "price-low" then r.rentPrice
    else if sortBy == "price-high" then -r.rentPrice
    else if sortBy == "rating" then -r.rating
    else if sortBy == "popular" then -r.views
    else 0.0
  }

  /** Ordered by the comparator: no later listing compares below an earlier one. */
  predicate SortedBy(s: seq<Listing>, sortBy: string)
  {
    forall i, j :: 0 <= i < j < |s| ==> SortKey(sortBy, s[i]) <= SortKey(sortBy, s[j])
  }

  /** `resources.filter((r) => r.resourceType === t)`. */
  function OfType(s: seq<Listing>, t: string): (r: seq<Listing>)
    ensures |r| <= |s|
    ensures forall i :: 0 <= i < |r| ==> r[i].resourceType == t
  {
    if s == [] then []
    else OfType(s[..|s| - 1], t) + (if s[|s| - 1].resourceType == t then [s[|s| - 1]] else [])
  }

  /** What the page sorts: everything for "all", else the listings of the chosen type. */
  function Selected(s: seq<Listing>, filter: string): seq<Listing>
  {
    if filter == "all" then s else OfType(s, filter)
  }

  /** The type filter keeps each listing of the type as often as it occurs, and no other listing. */
  lemma {:induction false} OfTypeCount(s: seq<Listing>, t: string)
    ensures forall r: Listing :: multiset(OfType(s, t))[r] == if r.resourceType == t then multiset(s)[r] else 0
  {
    if s != [] {
      var init := s[..|s| - 1];
      var last := s[|s| - 1];
      OfTypeCount(init, t);
      assert s == init + [last];
      assert multiset(s) == multiset(init) + multiset{last};
    }
  }

  /**
   * The type filter keeps exactly the listings of the type, each as often
   * as it occurs, and never more than there were.
   */
  lemma OfTypeExact(s: seq<Listing>, t: string)
    ensures forall r :: r in OfType(s, t) <==> r in s && r.resourceType == t
    ensures forall r: Listing :: r.resourceType == t ==> multiset(OfType(s, t))[r] == multiset(s)[r]
    ensures forall r: Listing :: r.resourceType != t ==> multiset(OfType(s, t))[r] == 0
    ensures |OfType(s, t)| <= |s|
  {
    OfTypeCount(s, t);
    forall r: Listing
      ensures r in OfType(s, t) <==> r in s && r.resourceType == t
    {
      assert r in OfType(s, t) <==> r in multiset(OfType(s, t));
      assert r in s <==> r in multiset(s);
    }
    assert multiset(OfType(s, t)) <= multiset(s);
    assert |multiset(OfType(s, t))| <= |multiset(s)|;
  }

  /** What each sort key means for the order of the result. */
  lemma SortOrders(s: seq<Listing>)
    ensures SortedBy(s, "price-low") <==> forall i, j :: 0 <= i < j < |s| ==> s[i].rentPrice <= s[j].rentPrice
    ensures SortedBy(s, "price-high") <==> forall i, j :: 0 <= i < j < |s| ==> s[i].rentPrice >= s[j].rentPrice
    ensures SortedBy(s, "rating") <==> forall i, j :: 0 <= i < j < |s| ==> s[i].rating >= s[j].rating
    ensures SortedBy(s, "popular") <==> forall i, j :: 0 <= i < j < |s| ==> s[i].views >= s[j].views
  {
  }

  /**
   * Any other sort key, "newest" and "oldest" included, compares every pair
   * as equal: every order is already sorted, so the stable sort keeps it.
   */
  lemma EqualKeysSorted(s: seq<Listing>, sortBy: string)
    requires sortBy !in {"price-low", "price-high", "rating", "popular"}
    ensures SortedBy(s, sortBy)
  {
  }

  /** The listings of `s` whose sort key is `v`, in their order. */
  function WithKey(s: seq<Listing>, sortBy: string, v: real): seq<Listing>
  {
    if s == [] then []
    else WithKey(s[..|s| - 1], sortBy, v) + (if SortKey(sortBy, s[|s| - 1]) == v then [s[|s| - 1]] else [])
  }

  /**
   * Stability: `s` and `t` list the listings of every sort key in the same
   * order, so no two listings the comparator sees as equal were exchanged.
   */
  ghost predicate SameKeyOrder(s: seq<Listing>, t: seq<Listing>, sortBy: string)
  {
    forall v :: WithKey(s, sortBy, v) == WithKey(t, sortBy, v)
  }

  lemma {:induction false} WithKeyAppend(s: seq<Listing>, t: seq<Listing>, sortBy: string, v: real)
    ensures WithKey(s + t, sortBy, v) == WithKey(s, sortBy, v) + WithKey(t, sortBy, v)
    decreases |t|
  {
    if t == [] {
      assert s + t == s;
    } else {
      assert (s + t)[..|s + t| - 1] == s + t[..|t| - 1];
      WithKeyAppend(s, t[..|t| - 1], sortBy, v);
    }
  }

  /** A listing is picked out for `v` exactly when it occurs and has key `v`. */
  lemma {:induction false} WithKeyMembers(s: seq<Listing>, sortBy: string, v: real)
    ensures forall x :: x in WithKey(s, sortBy, v) <==> x in s && SortKey(sortBy, x) == v
  {
    if s != [] {
      WithKeyMembers(s[..|s| - 1], sortBy, v);
      assert s == s[..|s| - 1] + [s[|s| - 1]];
    }
  }

  /** Exchanging two neighbours with different keys keeps the order within every key. */
  lemma SwapKeepsKeyOrder(s: seq<Listing>, j: int, sortBy: string)
    requires 0 < j < |s| && SortKey(sortBy, s[j - 1]) != SortKey(sortBy, s[j])
    ensures SameKeyOrder(s[j - 1 := s[j]][j := s[j - 1]], s, sortBy)
  {
    var t := s[j - 1 := s[j]][j := s[j - 1]];
    var pre, post := s[..j - 1], s[j + 1..];
    assert s == pre + [s[j - 1], s[j]] + post;
    assert t == pre + [s[j], s[j - 1]] + post;
    forall v
      ensures WithKey(t, sortBy, v) == WithKey(s, sortBy, v)
    {
      WithKeyAppend(pre + [s[j - 1], s[j]], post, sortBy, v);
      WithKeyAppend(pre, [s[j - 1], s[j]], sortBy, v);
      WithKeyAppend(pre + [s[j], s[j - 1]], post, sortBy, v);
      WithKeyAppend(pre, [s[j], s[j - 1]], sortBy, v);
      assert [s[j - 1], s[j]][..1] == [s[j - 1]];
      assert [s[j], s[j - 1]][..1] == [s[j]];
    }
  }

  /** Two stable orderings of each other that are both sorted end with the same listing. */
  lemma SameLast(s: seq<Listing>, t: seq<Listing>, sortBy: string)
    requires s != [] && t != []
    requires SortedBy(s, sortBy) && SortedBy(t, sortBy) && SameKeyOrder(s, t, sortBy)
    ensures s[|s| - 1] == t[|t| - 1]
  {
    var x, y := s[|s| - 1], t[|t| - 1];
    var k := SortKey(sortBy, x);
    WithKeyMembers(s, sortBy, k);
    WithKeyMembers(t, sortBy, k);
    WithKeyMembers(s, sortBy, SortKey(sortBy, y));
    WithKeyMembers(t, sortBy, SortKey(sortBy, y));
    assert WithKey(s, sortBy, k) == WithKey(t, sortBy, k);
    assert WithKey(s, sortBy, SortKey(sortBy, y)) == WithKey(t, sortBy, SortKey(sortBy, y));
    assert x in WithKey(t, sortBy, k);
    assert y in WithKey(s, sortBy, SortKey(sortBy, y));
    assert SortKey(sortBy, y) == k;
    var ws, wt := WithKey(s[..|s| - 1], sortBy, k), WithKey(t[..|t| - 1], sortBy, k);
    assert WithKey(s, sortBy, k) == ws + [x];
    assert WithKey(t, sortBy, k) == wt + [y];
    assert x == (ws + [x])[|ws|];
    assert y == (wt + [y])[|wt|];
  }

  /** Dropping a common last listing keeps two orderings stable with respect to each other. */
  lemma SameKeyOrderDropLast(s: seq<Listing>, t: seq<Listing>, sortBy: string)
    requires s != [] && t != [] && s[|s| - 1] == t[|t| - 1] && SameKeyOrder(s, t, sortBy)
    ensures SameKeyOrder(s[..|s| - 1], t[..|t| - 1], sortBy)
  {
    var x := s[|s| - 1];
    var s', t' := s[..|s| - 1], t[..|t| - 1];
    forall v
      ensures WithKey(s', sortBy, v) == WithKey(t', sortBy, v)
    {
      assert WithKey(s, sortBy, v) == WithKey(t, sortBy, v);
      if v == SortKey(sortBy, x) {
        var ws, wt := WithKey(s', sortBy, v), WithKey(t', sortBy, v);
        assert ws + [x] == wt + [x];
        assert ws == (ws + [x])[..|ws|] == (wt + [x])[..|wt|] == wt;
      } else {
        assert WithKey(s, sortBy, v) == WithKey(s', sortBy, v);
        assert WithKey(t, sortBy, v) == WithKey(t', sortBy, v);
      }
    }
  }

  /**
   * A stable sort has only one possible result: two sorted orders that keep
   * the order within every key are the same sequence.
   */
  lemma {:induction false} StableOrderUnique(s: seq<Listing>, t: seq<Listing>, sortBy: string)
    requires SortedBy(s, sortBy) && SortedBy(t, sortBy) && SameKeyOrder(s, t, sortBy)
    ensures s == t
    decreases |s| + |t|
  {
    if s == [] || t == [] {
      if s != [] {
        WithKeyMembers(s, sortBy, SortKey(sortBy, s[0]));
        assert false;
      } else if t != [] {
        WithKeyMembers(t, sortBy, SortKey(sortBy, t[0]));
        assert false;
      }
    } else {
      SameLast(s, t, sortBy);
      SameKeyOrderDropLast(s, t, sortBy);
      StableOrderUnique(s[..|s| - 1], t[..|t| - 1], sortBy);
      assert s == s[..|s| - 1] + [s[|s| - 1]] && t == t[..|t| - 1] + [t[|t| - 1]];
    }
  }

  /**
   * Exchanges `a[j - 1]` and `a[j]`, which keeps the array's contents and,
   * for neighbours with different keys, the order within every key.
   */
  method SwapDown(a: array<Listing>, j: int, sortBy: string)
    requires 0 < j < a.Length
    modifies a
    ensures a[..] == old(a[..])[j - 1 := old(a[j])][j := old(a[j - 1])]
    ensures multiset(a[..]) == multiset(old(a[..]))
    ensures old(SortKey(sortBy, a[j - 1]) != SortKey(sortBy, a[j])) ==> SameKeyOrder(a[..], old(a[..]), sortBy)
  {
    ghost var before := a[..];
    a[j - 1], a[j] := a[j], a[j - 1];
    if SortKey(sortBy, before[j - 1]) != SortKey(sortBy, before[j]) {
      SwapKeepsKeyOrder(before, j, sortBy);
    }
  }

  /**
   * One step of the sort: moves `a[i]` down past every earlier listing that
   * compares above it, so that `a[..i + 1]` becomes ordered.  A listing that
   * already compares no lower than its predecessor stays where it is.
   */
  method InsertNext(a: array<Listing>, i: int, sortBy: string)
    requires 0 <= i < a.Length
    requires forall m, n :: 0 <= m < n < i ==> SortKey(sortBy, a[m]) <= SortKey(sortBy, a[n])
    modifies a
    ensures forall m, n :: 0 <= m < n <= i ==> SortKey(sortBy, a[m]) <= SortKey(sortBy, a[n])
    ensures multiset(a[..]) == multiset(old(a[..]))
    ensures SameKeyOrder(a[..], old(a[..]), sortBy)
    ensures (i == 0 || old(SortKey(sortBy, a[i - 1]) <= SortKey(sortBy, a[i]))) ==> a[..] == old(a[..])
  {
    var j := i;
    while j > 0 && SortKey(sortBy, a[j - 1]) > SortKey(sortBy, a[j])
      invariant 0 <= j <= i
      invariant forall m, n :: 0 <= m < n <= i && n != j ==> SortKey(sortBy, a[m]) <= SortKey(sortBy, a[n])
      invariant forall n :: j < n <= i ==> SortKey(sortBy, a[j]) <= SortKey(sortBy, a[n])
      invariant multiset(a[..]) == multiset(old(a[..]))
      invariant SameKeyOrder(a[..], old(a[..]), sortBy)
      invariant j == i ==> a[..] == old(a[..])
      invariant j < i ==> old(SortKey(sortBy, a[i - 1]) > SortKey(sortBy, a[i]))
    {
      SwapDown(a, j, sortBy);
      j := j - 1;
    }
  }

  /**
   * `a.sort(cmp)`, in place and stable: the result is ordered by the
   * comparator, holds the same listings, keeps the order of the listings of
   * every key, and an already ordered array is left exactly as it was.
   * With `StableOrderUnique` this is the only order those promises allow.
   */
  method Sort(a: array<Listing>, sortBy: string)
    modifies a
    ensures SortedBy(a[..], sortBy)
    ensures multiset(a[..]) == multiset(old(a[..]))
    ensures SameKeyOrder(a[..], old(a[..]), sortBy)
    ensures SortedBy(old(a[..]), sortBy) ==> a[..] == old(a[..])
  {
    var i := 0;
    while i < a.Length
      invariant 0 <= i <= a.Length
      invariant forall m, n :: 0 <= m < n < i ==> SortKey(sortBy, a[m]) <= SortKey(sortBy, a[n])
      invariant multiset(a[..]) == multiset(old(a[..]))
      invariant SameKeyOrder(a[..], old(a[..]), sortBy)
      invariant SortedBy(old(a[..]), sortBy) ==> a[..] == old(a[..])
    {
      InsertNext(a, i, sortBy);
      i := i + 1;
    }
  }

  /**
   * filterResources.  For "all" the page's own array is sorted in place and
   * returned; for a type, a fresh array of that type's listings is sorted
   * and the page's array is untouched.  Either way the result holds the
   * selected listings, ordered by the comparator, and keeps their order
   * among listings of the same key.
   */
  method FilterResources(resources: array<Listing>, filter: string, sortBy: string)
    returns (filtered: array<Listing>)
    modifies resources
    ensures filter == "all" ==> filtered == resources
    ensures filter != "all" ==> fresh(filtered) && resources[..] == old(resources[..])
    ensures multiset(filtered[..]) == multiset(Selected(old(resources[..]), filter))
    ensures filter != "all" ==> forall r :: r in filtered[..] ==> r.resourceType == filter
    ensures SortedBy(filtered[..], sortBy)
    ensures SameKeyOrder(filtered[..], Selected(old(resources[..]), filter), sortBy)
    ensures SortedBy(Selected(old(resources[..]), filter), sortBy) ==>
      filtered[..] == Selected(old(resources[..]), filter)
  {
    if filter == "all" {
      filtered := resources;
    } else {
      var s := OfType(resources[..], filter);
      filtered := new Listing[|s|](i requires 0 <= i < |s| => s[i]);
      assert filtered[..] == s;
      OfTypeExact(resources[..], filter);
    }
    ghost var before := filtered[..];
    Sort(filtered, sortBy);
    if filter != "all" {
      forall r | r in filtered[..]
        ensures r.resourceType == filter
      {
        assert r in multiset(before);
      }
    }
  }

  /** One category button: its key and how many listings it would show. */
  datatype FilterButton = FilterButton(key: string, caption: string, count: nat)

  const ButtonTypes: seq<string> := ["book", "notes", "research_paper", "thesis", "journal"]

  /** filterButtons: "all" with the total, then one button per category with its count. */
  function FilterButtons(resources: seq<Listing>): (buttons: seq<FilterButton>)
    ensures |buttons| == 6 && buttons[0] == FilterButton("all", "All Resources", |resources|)
    ensures forall k :: 1 <= k < 6 ==> buttons[k].key == ButtonTypes[k - 1]
    ensures forall k :: 1 <= k < 6 ==> buttons[k].count == |OfType(resources, ButtonTypes[k - 1])|
  {
    [ FilterButton("all", "All Resources", |resources|),
      FilterButton("book", "Books", |OfType(resources, "book")|),
      FilterButton("notes", "Notes", |OfType(resources, "notes")|),
      FilterButton("research_paper", "Research Papers", |OfType(resources, "research_paper")|),
      FilterButton("thesis", "Thesis", |OfType(resources, "thesis")|),
      FilterButton("journal", "Journals", |OfType(resources, "journal")|) ]
  }

  function CategoryTotal(resources: seq<Listing>): nat
  {
    |OfType(resources, "book")| + |OfType(resources, "notes")| + |OfType(resources, "research_paper")|
      + |OfType(resources, "thesis")| + |OfType(resources, "journal")|
  }

  /** The last listing adds one to the count of its own type and nothing to the others. */
  lemma OfTypeLast(s: seq<Listing>, t: string)
    requires s != []
    ensures |OfType(s, t)| == |OfType(s[..|s| - 1], t)| + (if s[|s| - 1].resourceType == t then 1 else 0)
  {
  }

  /**
   * The category counts never add up to more than the "all" count, and fall
   * short exactly by the listings of no listed category ("other" among them).
   */
  lemma {:induction false} CategoryCountsBounded(resources: seq<Listing>)
    ensures CategoryTotal(resources) + |OfType(resources, "other")| <= |resources|
    ensures CategoryTotal(resources) <= |resources|
    ensures (forall r :: r in resources ==> r.resourceType in ButtonTypes) ==> CategoryTotal(resources) == |resources|
  {
    if resources != [] {
      var init := resources[..|resources| - 1];
      var last := resources[|resources| - 1];
      CategoryCountsBounded(init);
      OfTypeLast(resources, "book");
      OfTypeLast(resources, "notes");
      OfTypeLast(resources, "research_paper");
      OfTypeLast(resources, "thesis");
      OfTypeLast(resources, "journal");
      OfTypeLast(resources, "other");
      if forall r :: r in resources ==> r.resourceType in ButtonTypes {
        assert init + [last] == resources;
        assert forall r :: r in init ==> r in resources;
        assert last in resources;
      }
    }
  }
}
