/**
 * Client-side statistics over the entry lists (src/utils/statsCalculators.ts): entry counts and
 * the average glucose, the category filter of the food list, and the grouping of food entries by
 * category.
 */
module Stats {
  import opened Wrappers

  /** A food entry as the client holds it; `category` is absent when the server sent none. */
  datatype FoodItem = FoodItem(food: string, carb: real, favorite: bool, category: Option<string>)

  // ----- counts and average -----

  function Sum(values: seq<int>): int {
    if values == [] then 0 else values[0] + Sum(values[1..])
  }

  /** The sum of values that lie in [lo, hi] lies between |values|·lo and |values|·hi. */
  lemma {:induction false} SumBounds(values: seq<int>, lo: int, hi: int)
    requires forall i :: 0 <= i < |values| ==> lo <= values[i] <= hi
    ensures |values| * lo <= Sum(values) <= |values| * hi
  {
    if values != [] {
      SumBounds(values[1..], lo, hi);
    }
  }

  /** The average before `toFixed(1)`: `Zero` is the literal "0" of an absent or empty list. */
  datatype Average = Zero | Mean(value: real)

  function AverageGlucose(entries: Option<seq<int>>): (a: Average)
    ensures a.Zero? <==> entries.None? || entries.value == []
    ensures a.Mean? ==> a.value * |entries.value| as real == Sum(entries.value) as real
  {
    if entries.None? || entries.value == [] then Zero
    else Mean(Sum(entries.value) as real / |entries.value| as real)
  }

  /** The average of readings that lie in [lo, hi] lies in [lo, hi] too. */
  lemma AverageWithinRange(entries: seq<int>, lo: int, hi: int)
    requires entries != []
    requires forall i :: 0 <= i < |entries| ==> lo <= entries[i] <= hi
    ensures lo as real <= AverageGlucose(Some(entries)).value <= hi as real
  {
    SumBounds(entries, lo, hi);
    var n, total := |entries|, Sum(entries);
    ProductAsReal(n, lo);
    ProductAsReal(n, hi);
    MeanBounds(total as real, n as real, lo as real, hi as real);
    assert AverageGlucose(Some(entries)).value == total as real / n as real;
  }

  lemma ProductAsReal(a: int, b: int)
    ensures (a * b) as real == a as real * b as real
  {
  }

  lemma MeanBounds(total: real, n: real, lo: real, hi: real)
    requires n > 0.0 && n * lo <= total <= n * hi
    ensures lo <= total / n <= hi
  {
    var m := total / n;
    assert m * n == total;
    assert (m - lo) * n >= 0.0;
    assert (hi - m) * n >= 0.0;
  }

  function CountFavorites(entries: seq<FoodItem>): (n: nat)
    ensures n <= |entries|
    ensures n == |entries| <==> forall i :: 0 <= i < |entries| ==> entries[i].favorite
    ensures n == 0 <==> forall i :: 0 <= i < |entries| ==> !entries[i].favorite
  {
    if entries == [] then 0
    else (if entries[0].favorite then 1 else 0) + CountFavorites(entries[1..])
  }

  /** The count is additive: the favorites of a concatenation are those of each part. */
  lemma {:induction false} CountFavoritesAppend(a: seq<FoodItem>, b: seq<FoodItem>)
    ensures CountFavorites(a + b) == CountFavorites(a) + CountFavorites(b)
  {
    if a == [] {
      assert a + b == b;
    } else {
      assert (a + b)[1..] == a[1..] + b;
      CountFavoritesAppend(a[1..], b);
    }
  }

  datatype UserStats = UserStats(totalGlucoseEntries: nat, totalFoodEntries: nat, favoriteFoods: nat, averageGlucose: Average)

  /** Counts are list lengths, 0 for an absent list; favorites never outnumber food entries. */
  function CalculateUserStats(glucose: Option<seq<int>>, food: Option<seq<FoodItem>>): (s: UserStats)
    ensures s.totalGlucoseEntries == if glucose.Some? then |glucose.value| else 0
    ensures s.totalFoodEntries == if food.Some? then |food.value| else 0
    ensures s.favoriteFoods <= s.totalFoodEntries
    ensures food.None? ==> s.favoriteFoods == 0
    ensures s.averageGlucose.Zero? <==> s.totalGlucoseEntries == 0
    ensures s.averageGlucose == AverageGlucose(glucose)
    ensures food.Some? ==> s.favoriteFoods == CountFavorites(food.value)
  {
    UserStats(if glucose.Some? then |glucose.value| else 0,
              if food.Some? then |food.value| else 0,
              if food.Some? then CountFavorites(food.value) else 0,
              AverageGlucose(glucose))
  }

  // ----- filter -----

  /** `a` is `b` with some elements left out, the rest in their order. */
  predicate IsSubsequence<T(==)>(a: seq<T>, b: seq<T>)
    decreases |b|
  {
    a == [] || (b != [] && ((a[0] == b[0] && IsSubsequence(a[1..], b[1..])) || IsSubsequence(a, b[1..])))
  }

  /** A falsy category: absent or empty. */
  predicate Uncategorized(e: FoodItem) {
    e.category.None? || e.category.value == ""
  }

  /** The entries the filter keeps for a category other than "All". */
  predicate InCategory(e: FoodItem, category: string) {
    if category == "Other" then Uncategorized(e) || e.category == Some("Other") || e.category == Some("None")
    else e.category == Some(category)
  }

  function KeepCategory(entries: seq<FoodItem>, category: string): (r: seq<FoodItem>)
    ensures |r| <= |entries|
    ensures IsSubsequence(r, entries)
    ensures forall e :: multiset(r)[e] == if InCategory(e, category) then multiset(entries)[e] else 0
  {
    if entries == [] then []
    else
      var rest := KeepCategory(entries[1..], category);
      assert entries == [entries[0]] + entries[1..];
      if InCategory(entries[0], category) then [entries[0]] + rest else rest
  }

  /**
   * `filterEntriesByCategory`: "All" returns the list itself; any other category keeps, in order
   * and with their multiplicity, exactly the matching entries — for "Other" those with a missing
   * or empty category or the category "Other" or "None".
   */
  function FilterEntriesByCategory(entries: seq<FoodItem>, category: string): (r: seq<FoodItem>)
    ensures category == "All" ==> r == entries
    ensures IsSubsequence(r, entries)
    ensures category != "All" ==> forall e :: e in r <==> e in entries && InCategory(e, category)
    ensures category != "All" ==> forall e :: multiset(r)[e] == if InCategory(e, category) then multiset(entries)[e] else 0
  {
    if category == "All" then
      SubsequenceReflexive(entries);
      entries
    else KeepCategory(entries, category)
  }

  lemma {:induction false} SubsequenceReflexive<T>(s: seq<T>)
    ensures IsSubsequence(s, s)
  {
    if s != [] {
      SubsequenceReflexive(s[1..]);
    }
  }

  // ----- grouping -----

  /** The group key of an entry: its category, or "Uncategorized" when that is falsy. */
  function GroupKey(e: FoodItem): string {
    if Uncategorized(e) then "Uncategorized" else e.category.value
  }

  /** The entries of one group, in input order. */
  function GroupOf(entries: seq<FoodItem>, key: string): seq<FoodItem> {
    if entries == [] then []
    else (if GroupKey(entries[0]) == key then [entries[0]] else []) + GroupOf(entries[1..], key)
  }

  lemma {:induction false} GroupOfAppend(entries: seq<FoodItem>, e: FoodItem, key: string)
    ensures GroupOf(entries + [e], key) == GroupOf(entries, key) + (if GroupKey(e) == key then [e] else [])
  {
    if entries == [] {
      assert [] + [e] == [e];
    } else {
      var rest := entries[1..];
      var head := if GroupKey(entries[0]) == key then [entries[0]] else [];
      var tail := if GroupKey(e) == key then [e] else [];
      assert (entries + [e])[0] == entries[0];
      assert (entries + [e])[1..] == rest + [e];
      GroupOfAppend(rest, e, key);
      assert GroupOf(entries + [e], key) == head + GroupOf(rest + [e], key);
      assert head + (GroupOf(rest, key) + tail) == (head + GroupOf(rest, key)) + tail;
    }
  }

  lemma {:induction false} GroupOfNone(entries: seq<FoodItem>, key: string)
    requires forall i :: 0 <= i < |entries| ==> GroupKey(entries[i]) != key
    ensures GroupOf(entries, key) == []
  {
    if entries != [] {
      GroupOfNone(entries[1..], key);
    }
  }

  /** A group holds, in input order, exactly the entries with its key. */
  lemma {:induction false} GroupOfMembers(entries: seq<FoodItem>, key: string)
    ensures IsSubsequence(GroupOf(entries, key), entries)
    ensures forall e :: e in GroupOf(entries, key) <==> e in entries && GroupKey(e) == key
  {
    if entries != [] {
      GroupOfMembers(entries[1..], key);
      assert entries == [entries[0]] + entries[1..];
      var rest := GroupOf(entries[1..], key);
      if GroupKey(entries[0]) == key {
        assert GroupOf(entries, key)[1..] == rest;
      } else {
        assert GroupOf(entries, key) == rest;
      }
    }
  }

  /** The keys in the order the reduce first creates them. */
  function KeyOrder(entries: seq<FoodItem>): seq<string> {
    if entries == [] then []
    else
      var keys := KeyOrder(entries[..|entries| - 1]);
      var k := GroupKey(entries[|entries| - 1]);
      if k in keys then keys else keys + [k]
  }

  /** The key order lists each key of the entries once. */
  lemma {:induction false} KeyOrderSpec(entries: seq<FoodItem>)
    ensures forall k :: k in KeyOrder(entries) <==> exists i :: 0 <= i < |entries| && GroupKey(entries[i]) == k
    ensures forall i, j :: 0 <= i < j < |KeyOrder(entries)| ==> KeyOrder(entries)[i] != KeyOrder(entries)[j]
  {
    if entries != [] {
      var init := entries[..|entries| - 1];
      KeyOrderSpec(init);
      assert forall i :: 0 <= i < |init| ==> init[i] == entries[i];
      forall k | exists i :: 0 <= i < |entries| && GroupKey(entries[i]) == k
        ensures k in KeyOrder(entries)
      {
        var i :| 0 <= i < |entries| && GroupKey(entries[i]) == k;
        if i < |init| {
          assert GroupKey(init[i]) == k;
        }
      }
    }
  }

  /** The dictionary `groupEntriesByCategory` has built after the given entries. */
  function Grouped(entries: seq<FoodItem>): map<string, seq<FoodItem>> {
    if entries == [] then map[]
    else
      var g := Grouped(entries[..|entries| - 1]);
      var e := entries[|entries| - 1];
      var k := GroupKey(e);
      g[k := (if k in g then g[k] else []) + [e]]
  }

  /** The dictionary's keys are the key order's, and each key maps to its group. */
  lemma {:induction false} GroupedSpec(entries: seq<FoodItem>)
    ensures forall k :: k in Grouped(entries) <==> k in KeyOrder(entries)
    ensures forall k | k in Grouped(entries) :: Grouped(entries)[k] == GroupOf(entries, k)
  {
    if entries != [] {
      var init := entries[..|entries| - 1];
      var e := entries[|entries| - 1];
      GroupedSpec(init);
      KeyOrderSpec(init);
      assert entries == init + [e];
      forall k | k in Grouped(entries) ensures Grouped(entries)[k] == GroupOf(entries, k) {
        GroupOfAppend(init, e, k);
        if k !in Grouped(init) {
          GroupOfNone(init, k);
        }
      }
    }
  }

  /** The total size of the groups named by `keys`. */
  function SizeSum(g: map<string, seq<FoodItem>>, keys: seq<string>): nat {
    if keys == [] then 0 else (if keys[0] in g then |g[keys[0]]| else 0) + SizeSum(g, keys[1..])
  }

  lemma {:induction false} SizeSumAppend(g: map<string, seq<FoodItem>>, keys: seq<string>, k: string)
    ensures SizeSum(g, keys + [k]) == SizeSum(g, keys) + (if k in g then |g[k]| else 0)
  {
    if keys == [] {
      assert [] + [k] == [k];
    } else {
      assert (keys + [k])[1..] == keys[1..] + [k];
      SizeSumAppend(g, keys[1..], k);
    }
  }

  /** Growing one group by one entry grows the total by one, when the key is listed once. */
  lemma {:induction false} SizeSumGrow(g: map<string, seq<FoodItem>>, keys: seq<string>, k: string, e: FoodItem)
    requires forall i, j :: 0 <= i < j < |keys| ==> keys[i] != keys[j]
    ensures k in keys ==> SizeSum(g[k := (if k in g then g[k] else []) + [e]], keys) == SizeSum(g, keys) + 1
    ensures k !in keys ==> SizeSum(g[k := (if k in g then g[k] else []) + [e]], keys) == SizeSum(g, keys)
  {
    if keys != [] {
      assert forall i, j :: 0 <= i < j < |keys[1..]| ==> keys[1..][i] != keys[1..][j] by {
        forall i, j | 0 <= i < j < |keys[1..]| ensures keys[1..][i] != keys[1..][j] {
          assert keys[1..][i] == keys[i + 1] && keys[1..][j] == keys[j + 1];
        }
      }
      SizeSumGrow(g, keys[1..], k, e);
      if keys[0] == k {
        assert k !in keys[1..] by {
          forall j | 0 <= j < |keys[1..]| ensures keys[1..][j] != k {
            assert keys[1..][j] == keys[j + 1];
          }
        }
      }
    }
  }

  /** Every entry lands in exactly one group, so the group sizes add up to the number of entries. */
  lemma {:induction false} GroupSizesSum(entries: seq<FoodItem>)
    ensures SizeSum(Grouped(entries), KeyOrder(entries)) == |entries|
  {
    if entries != [] {
      var init := entries[..|entries| - 1];
      var e := entries[|entries| - 1];
      var k := GroupKey(e);
      var keys := KeyOrder(init);
      GroupSizesSum(init);
      KeyOrderSpec(init);
      GroupedSpec(init);
      SizeSumGrow(Grouped(init), keys, k, e);
      if k !in keys {
        SizeSumAppend(Grouped(entries), keys, k);
      }
    }
  }

  /** Each entry is in the group of its own key and in no other group. */
  lemma EntryInExactlyOneGroup(entries: seq<FoodItem>, i: nat)
    requires i < |entries|
    ensures GroupKey(entries[i]) in Grouped(entries)
    ensures entries[i] in Grouped(entries)[GroupKey(entries[i])]
    ensures forall k | k in Grouped(entries) && entries[i] in Grouped(entries)[k] :: k == GroupKey(entries[i])
  {
    KeyOrderSpec(entries);
    GroupedSpec(entries);
    GroupOfMembers(entries, GroupKey(entries[i]));
    forall k | k in Grouped(entries) && entries[i] in Grouped(entries)[k] ensures k == GroupKey(entries[i]) {
      GroupOfMembers(entries, k);
    }
  }

  /**
   * `groupEntriesByCategory`: the reduce over the entries, pushing each onto the array of its
   * key and creating the array on first use.
   */
  method GroupEntriesByCategory(entries: seq<FoodItem>) returns (groups: map<string, seq<FoodItem>>)
    ensures groups == Grouped(entries)
    ensures forall k :: k in groups <==> exists i :: 0 <= i < |entries| && GroupKey(entries[i]) == k
    ensures forall k | k in groups :: groups[k] == GroupOf(entries, k)
  {
    groups := map[];
    var i := 0;
    while i < |entries|
      invariant 0 <= i <= |entries|
      invariant groups == Grouped(entries[..i])
    {
      var e := entries[i];
      var key := GroupKey(e);
      if key !in groups {
        groups := groups[key := []];
        assert [] + [e] == [e];
      }
      groups := groups[key := groups[key] + [e]];
      assert entries[..i + 1][..i] == entries[..i];
      i := i + 1;
    }
    assert entries[..i] == entries;
    KeyOrderSpec(entries);
    GroupedSpec(entries);
  }
}
