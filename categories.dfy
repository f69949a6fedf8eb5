/** The four news categories of the application, the label lookup used by the
    pages, and the selection toggle used by the onboarding and settings pages. */
module Categories {

  /** The category types and their labels, in the order the onboarding page
      lists them. */
  const AllCategories: seq<(string, string)> := [
    ("sport", "Спорт"),
    ("first", "Движение первые"),
    ("history", "Моя история"),
    ("tver", "Тверь")
  ]

  /** The set of the four category types, the keys of `AllCategories`. */
  const CategoryTypes: set<string> := set k | 0 <= k < |AllCategories| :: AllCategories[k].0

  /** The derived set holds exactly the four literal types. */
  lemma CategoryTypesAreTheFour()
    ensures CategoryTypes == {"sport", "first", "history", "tver"}
  {
    assert AllCategories[0].0 == "sport" && AllCategories[1].0 == "first";
    assert AllCategories[2].0 == "history" && AllCategories[3].0 == "tver";
  }

  /** Label of a category; a key other than the four types is returned unchanged.
      The source looks the key up in a four-entry object and falls back to the key when the lookup is falsy;
      all four labels are non-empty, so the fallback applies exactly to unknown keys. */
  function CategoryLabel(category: string): (shown: string)
    ensures category == "sport" ==> shown == "Спорт"
    ensures category == "first" ==> shown == "Движение первые"
    ensures category == "history" ==> shown == "Моя история"
    ensures category == "tver" ==> shown == "Тверь"
    ensures category !in CategoryTypes ==> shown == category
    ensures category in CategoryTypes <==> shown != category
  {
    CategoryTypesAreTheFour();
    if category == "sport" then "Спорт"
    else if category == "first" then "Движение первые"
    else if category == "history" then "Моя история"
    else if category == "tver" then "Тверь"
    else category
  }

  /** The label lookup and the onboarding list agree on every category. */
  lemma LabelsAgreeWithList(k: nat)
    requires k < |AllCategories|
    ensures AllCategories[k].0 in CategoryTypes
    ensures CategoryLabel(AllCategories[k].0) == AllCategories[k].1
  {
  }

  /** `s` with every occurrence of `c` removed, order kept (an array filter). */
  function Without(s: seq<string>, c: string): (r: seq<string>)
    ensures multiset(r) == multiset(s)[c := 0]
    ensures forall x :: x in r <==> x in s && x != c
    ensures |r| <= |s|
    ensures c !in s ==> r == s
    ensures |s| == 1 ==> r == if s[0] == c then [] else s
  {
    if s == [] then []
    else
      assert s == [s[0]] + s[1..];
      var t := Without(s[1..], c);
      if s[0] == c then t else [s[0]] + t
  }

  /** Toggling a category: a present one is removed everywhere, an absent one
      is appended at the end. */
  function Toggle(s: seq<string>, c: string): (r: seq<string>)
    ensures c in s ==> r == Without(s, c) && multiset(r) == multiset(s)[c := 0]
    ensures c !in s ==> r == s + [c]
    ensures c in r <==> c !in s
    ensures forall x :: x != c ==> (x in r <==> x in s)
  {
    if c in s then Without(s, c) else s + [c]
  }

  /** Removal distributes over concatenation; with the one-element case in
      the contract of `Without`, this fixes the result completely: the kept
      elements stay in their original order. */
  lemma {:induction false} WithoutConcat(s: seq<string>, t: seq<string>, c: string)
    ensures Without(s + t, c) == Without(s, c) + Without(t, c)
  {
    if s == [] {
      assert [] + t == t;
    } else {
      assert (s + t)[0] == s[0] && (s + t)[1..] == s[1..] + t;
      WithoutConcat(s[1..], t, c);
    }
  }

  predicate Distinct(s: seq<string>) {
    forall i, j :: 0 <= i < j < |s| ==> s[i] != s[j]
  }

  /** Removing the appended absent category gives back the original list. */
  lemma {:induction false} WithoutAppended(s: seq<string>, c: string)
    requires c !in s
    ensures Without(s + [c], c) == s
  {
    if s == [] {
      assert [] + [c] == [c];
    } else {
      assert (s + [c])[1..] == s[1..] + [c];
      WithoutAppended(s[1..], c);
    }
  }

  /** Toggling an absent category twice returns exactly the original list. */
  lemma ToggleTwiceAbsent(s: seq<string>, c: string)
    requires c !in s
    ensures Toggle(Toggle(s, c), c) == s
  {
    assert c in s + [c];
    WithoutAppended(s, c);
  }

  /** Toggling a present category twice moves it, once, to the end. */
  lemma ToggleTwicePresent(s: seq<string>, c: string)
    requires c in s
    ensures Toggle(Toggle(s, c), c) == Without(s, c) + [c]
  {
    assert c !in multiset(Without(s, c));
  }

  lemma {:induction false} WithoutKeepsDistinct(s: seq<string>, c: string)
    requires Distinct(s)
    ensures Distinct(Without(s, c))
  {
    if s != [] {
      WithoutKeepsDistinct(s[1..], c);
      if s[0] != c {
        assert s[0] !in s[1..];
      }
    }
  }

  /** Toggling keeps a duplicate-free selection duplicate-free. */
  lemma ToggleKeepsDistinct(s: seq<string>, c: string)
    requires Distinct(s)
    ensures Distinct(Toggle(s, c))
  {
    if c in s {
      WithoutKeepsDistinct(s, c);
    }
  }

  /** A duplicate-free list has as many elements as its set of elements. */
  lemma {:induction false} DistinctCardinality(s: seq<string>)
    requires Distinct(s)
    ensures |set x | x in s| == |s|
  {
    if s != [] {
      var tail := s[1..];
      assert Distinct(tail);
      DistinctCardinality(tail);
      assert (set x | x in s) == (set x | x in tail) + {s[0]};
      assert s[0] !in tail;
    }
  }

  /** Over the four category types, a duplicate-free selection that is toggled
      with one of them stays duplicate-free and has at most four entries. */
  lemma ToggleBounded(s: seq<string>, c: string)
    requires Distinct(s)
    requires forall x :: x in s ==> x in CategoryTypes
    requires c in CategoryTypes
    ensures Distinct(Toggle(s, c))
    ensures forall x :: x in Toggle(s, c) ==> x in CategoryTypes
    ensures |Toggle(s, c)| <= |CategoryTypes| == 4
  {
    var r := Toggle(s, c);
    CategoryTypesAreTheFour();
    ToggleKeepsDistinct(s, c);
    DistinctCardinality(r);
    SubsetCardinality((set x | x in r), CategoryTypes);
  }

  lemma {:induction false} SubsetCardinality(a: set<string>, b: set<string>)
    requires a <= b
    ensures |a| <= |b|
  {
    if a != {} {
      var x :| x in a;
      SubsetCardinality(a - {x}, b - {x});
    }
  }
}
