/** The menu page: a category filter where `all` shows everything, then a
    sort of a copy of the filtered list by name, price or rating. */
module Menu {
  import opened Catalog
  import Collation

  /** The category button that shows every food. */
  const AllCategories: string := "all"

  /** `food => food.category === category`, in order. */
  function OfCategory(foods: seq<Food>, category: string): (r: seq<Food>)
    ensures |r| <= |foods|
    ensures forall i :: 0 <= i < |r| ==> r[i].category == category
    ensures forall f :: f in r <==> f in foods && f.category == category
  {
    if foods == [] then []
    else
      var rest := OfCategory(foods[1..], category);
      assert forall f :: f in foods <==> f == foods[0] || f in foods[1..];
      if foods[0].category == category then [foods[0]] + rest else rest
  }

  /** `filteredFoods`. */
  function FilterFoods(foods: seq<Food>, category: string): (r: seq<Food>)
    ensures forall f :: f in r <==> f in foods && (category == AllCategories || f.category == category)
  {
    if category == AllCategories then foods else OfCategory(foods, category)
  }

  /** The category filter keeps the foods' order: filtering a list in two
      parts is filtering each part and joining them. */
  lemma {:induction false} OfCategoryAppend(a: seq<Food>, b: seq<Food>, category: string)
    ensures OfCategory(a + b, category) == OfCategory(a, category) + OfCategory(b, category)
  {
    if a == [] {
      assert a + b == b;
    } else {
      assert (a + b)[0] == a[0];
      assert (a + b)[1..] == a[1..] + b;
      OfCategoryAppend(a[1..], b, category);
    }
  }

  /** ... and keeps every copy of a matching food and none of the others. */
  lemma {:induction false} OfCategoryCounts(foods: seq<Food>, category: string, f: Food)
    ensures multiset(OfCategory(foods, category))[f] ==
      if f.category == category then multiset(foods)[f] else 0
  {
    if foods != [] {
      OfCategoryCounts(foods[1..], category, f);
      assert foods == [foods[0]] + foods[1..];
    }
  }

  /** The category `all` shows the list as given. */
  lemma FilterAll(foods: seq<Food>)
    ensures FilterFoods(foods, AllCategories) == foods
  {
  }

  // ---------------------------------------------------------------------
  // Sorting

  /** The four entries of the sort menu. */
  datatype SortKey = ByName | PriceLow | PriceHigh | Rating

  /** The `switch (sortBy)`: three named keys, and `name` for anything else. */
  function ParseSortKey(sortBy: string): (k: SortKey)
    ensures k == PriceLow <==> sortBy == "price-low"
    ensures k == PriceHigh <==> sortBy == "price-high"
    ensures k == Rating <==> sortBy == "rating"
  {
    if sortBy == "price-low" then PriceLow
    else if sortBy == "price-high" then PriceHigh
    else if sortBy == "rating" then Rating
    else ByName
  }

  /** The comparator handed to `sort`. */
  function CompareFoods(key: SortKey, a: Food, b: Food): int {
    match key
    case PriceLow => a.price - b.price
    case PriceHigh => b.price - a.price
    case Rating => b.rating - a.rating
    case ByName => Collation.Compare(a.name, b.name)
  }

  /** `a` may come before `b`. */
  predicate Precedes(key: SortKey, a: Food, b: Food) {
    CompareFoods(key, a, b) <= 0
  }

  lemma PrecedesTotal(key: SortKey, a: Food, b: Food)
    ensures Precedes(key, a, b) || Precedes(key, b, a)
  {
    if key == ByName {
      Collation.CompareFlip(a.name, b.name);
    }
  }

  lemma PrecedesTransitive(key: SortKey, a: Food, b: Food, c: Food)
    requires Precedes(key, a, b) && Precedes(key, b, c)
    ensures Precedes(key, a, c)
  {
    if key == ByName {
      Collation.CompareTransitive(a.name, b.name, c.name);
    }
  }

  ghost predicate Sorted(key: SortKey, s: seq<Food>) {
    forall i, j :: 0 <= i < j < |s| ==> Precedes(key, s[i], s[j])
  }

  /** Put `x` before the first element it may precede. */
  function Insert(key: SortKey, x: Food, t: seq<Food>): (r: seq<Food>)
    ensures multiset(r) == multiset(t) + multiset{x}
  {
    if t == [] || Precedes(key, x, t[0]) then [x] + t
    else
      assert t == [t[0]] + t[1..];
      [t[0]] + Insert(key, x, t[1..])
  }

  lemma ConsSorted(key: SortKey, a: Food, rest: seq<Food>)
    requires Sorted(key, rest)
    requires forall y :: y in rest ==> Precedes(key, a, y)
    ensures Sorted(key, [a] + rest)
  {
    var s := [a] + rest;
    forall i, j | 0 <= i < j < |s| ensures Precedes(key, s[i], s[j]) {
      assert s[j] == rest[j - 1];
      if i > 0 {
        assert s[i] == rest[i - 1];
      }
    }
  }

  lemma {:induction false} InsertSorted(key: SortKey, x: Food, t: seq<Food>)
    requires Sorted(key, t)
    ensures Sorted(key, Insert(key, x, t))
  {
    if t == [] {
    } else if Precedes(key, x, t[0]) {
      forall y | y in t ensures Precedes(key, x, y) {
        var j :| 0 <= j < |t| && t[j] == y;
        if j > 0 {
          PrecedesTransitive(key, x, t[0], y);
        }
      }
      ConsSorted(key, x, t);
    } else {
      PrecedesTotal(key, x, t[0]);
      var tail := t[1..];
      assert Sorted(key, tail) by {
        forall i, j | 0 <= i < j < |tail| ensures Precedes(key, tail[i], tail[j]) {
          assert tail[i] == t[i + 1] && tail[j] == t[j + 1];
        }
      }
      InsertSorted(key, x, tail);
      var rest := Insert(key, x, tail);
      forall y | y in rest ensures Precedes(key, t[0], y) {
        assert y in multiset(rest);
        if y != x {
          assert y in multiset(tail);
          var j :| 0 <= j < |tail| && tail[j] == y;
          assert t[j + 1] == y;
        }
      }
      ConsSorted(key, t[0], rest);
    }
  }

  /** `[...filteredFoods].sort(comparator)`: a new list holding the same
      foods, ordered by the comparator. The list it was given is a value and
      is not changed. */
  function Sort(key: SortKey, s: seq<Food>): (r: seq<Food>)
    ensures multiset(r) == multiset(s)
    ensures Sorted(key, r)
  {
    if s == [] then []
    else
      var t := Sort(key, s[1..]);
      InsertSorted(key, s[0], t);
      assert s == [s[0]] + s[1..];
      Insert(key, s[0], t)
  }

  /** `sortedFoods`: what the menu grid shows. */
  function SortedFoods(foods: seq<Food>, category: string, sortBy: string): seq<Food> {
    Sort(ParseSortKey(sortBy), FilterFoods(foods, category))
  }

  /** The grid shows exactly the foods that pass the filter, each as many
      times as it occurs in the list. */
  lemma ShownFoods(foods: seq<Food>, category: string, sortBy: string)
    ensures multiset(SortedFoods(foods, category, sortBy)) == multiset(FilterFoods(foods, category))
    ensures forall f :: f in SortedFoods(foods, category, sortBy) <==>
      f in foods && (category == AllCategories || f.category == category)
  {
    var r := SortedFoods(foods, category, sortBy);
    forall f ensures f in r <==> f in FilterFoods(foods, category) {
      assert f in r <==> f in multiset(r);
    }
  }

  /** `price-low`: prices never go down along the grid. */
  lemma PriceLowAscending(foods: seq<Food>, category: string)
    ensures var r := SortedFoods(foods, category, "price-low");
      forall i, j :: 0 <= i < j < |r| ==> r[i].price <= r[j].price
  {
    var r := SortedFoods(foods, category, "price-low");
    assert Sorted(PriceLow, r);
  }

  /** `price-high`: prices never go up along the grid. */
  lemma PriceHighDescending(foods: seq<Food>, category: string)
    ensures var r := SortedFoods(foods, category, "price-high");
      forall i, j :: 0 <= i < j < |r| ==> r[i].price >= r[j].price
  {
    var r := SortedFoods(foods, category, "price-high");
    assert Sorted(PriceHigh, r);
  }

  /** `rating`: ratings never go up along the grid. */
  lemma RatingDescending(foods: seq<Food>, category: string)
    ensures var r := SortedFoods(foods, category, "rating");
      forall i, j :: 0 <= i < j < |r| ==> r[i].rating >= r[j].rating
  {
    var r := SortedFoods(foods, category, "rating");
    assert Sorted(Rating, r);
  }

  /** `name`, and every key the switch does not name, order by name. */
  lemma NameAscending(foods: seq<Food>, category: string, sortBy: string)
    requires sortBy != "price-low" && sortBy != "price-high" && sortBy != "rating"
    ensures SortedFoods(foods, category, sortBy) == SortedFoods(foods, category, "name")
    ensures var r := SortedFoods(foods, category, sortBy);
      forall i, j :: 0 <= i < j < |r| ==> Collation.Compare(r[i].name, r[j].name) <= 0
  {
    var r := SortedFoods(foods, category, sortBy);
    assert Sorted(ByName, r);
  }
}
