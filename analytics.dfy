/**
 * The analytics panel: a per-category count of the places found, in the
 * order each category first occurs, coloured from a fixed palette.
 */
module Analytics {
  import opened Schemas

  /** The bucket for places that have no category. */
  const Uncategorized: string := "Uncategorized"

  /** The chart palette; cell `i` takes colour `i mod 6`. */
  const Colors: seq<string> := ["#0088FE", "#00C49F", "#FFBB28", "#FF8042", "#8884d8", "#ffc658"]

  /** One entry of the tally: a category name and how many places have it. */
  datatype CategoryCount = CategoryCount(name: string, value: nat)

  /** The bucket a place is counted in: its category, or the default when that is missing or empty. */
  function CategoryOf(p: Place): (c: string)
    ensures c != ""
    ensures p.category == None || p.category == Some("") ==> c == Uncategorized
    ensures p.category.Some? && p.category.value != "" ==> c == p.category.value
  {
    match p.category
    case Some(c) => if c != "" then c else Uncategorized
    case None => Uncategorized
  }

  function Categories(places: seq<Place>): seq<string>
  {
    seq(|places|, i requires 0 <= i < |places| => CategoryOf(places[i]))
  }

  /** The position of the first entry named `name`, or |acc| when there is none. */
  function IndexOfName(acc: seq<CategoryCount>, name: string): (i: nat)
    ensures i <= |acc|
    ensures i < |acc| ==> acc[i].name == name
    ensures forall j :: 0 <= j < i ==> acc[j].name != name
  {
    if acc == [] then 0
    else if acc[0].name == name then 0
    else 1 + IndexOfName(acc[1..], name)
  }

  /** One step of the tally: increment the entry for `c`, or append a new entry with count 1. */
  function Bump(acc: seq<CategoryCount>, c: string): seq<CategoryCount>
  {
    var i := IndexOfName(acc, c);
    if i < |acc| then acc[i := CategoryCount(c, acc[i].value + 1)]
    else acc + [CategoryCount(c, 1)]
  }

  /** The tally of a list of places, one place at a time from the left. */
  function Tally(places: seq<Place>): seq<CategoryCount>
  {
    if places == [] then []
    else Bump(Tally(places[..|places| - 1]), CategoryOf(places[|places| - 1]))
  }

  function Sum(acc: seq<CategoryCount>): nat
  {
    if acc == [] then 0 else Sum(acc[..|acc| - 1]) + acc[|acc| - 1].value
  }

  /** The position where `c` first occurs in `cs`. */
  function FirstIndex(cs: seq<string>, c: string): (i: nat)
    requires c in cs
    ensures i < |cs| && cs[i] == c
    ensures forall j :: 0 <= j < i ==> cs[j] != c
  {
    if cs[0] == c then 0 else 1 + FirstIndex(cs[1..], c)
  }

  /** No two entries share a name. */
  ghost predicate DistinctNames(acc: seq<CategoryCount>)
  {
    forall i, j :: 0 <= i < j < |acc| ==> acc[i].name != acc[j].name
  }

  /** The entries are named after exactly the buckets occurring in `cs`. */
  ghost predicate SameBuckets(acc: seq<CategoryCount>, cs: seq<string>)
  {
    && (forall i :: 0 <= i < |acc| ==> acc[i].name in cs)
    && (forall c :: c in cs ==> IndexOfName(acc, c) < |acc|)
  }

  /** Each entry counts the occurrences of its name in `cs`. */
  ghost predicate CountsOccurrences(acc: seq<CategoryCount>, cs: seq<string>)
  {
    forall i :: 0 <= i < |acc| ==> acc[i].value == multiset(cs)[acc[i].name]
  }

  /** The entries are ordered by where their names first occur in `cs`. */
  ghost predicate FirstOccurrenceOrder(acc: seq<CategoryCount>, cs: seq<string>)
  {
    forall i, j :: 0 <= i < j < |acc| && acc[i].name in cs && acc[j].name in cs ==>
      FirstIndex(cs, acc[i].name) < FirstIndex(cs, acc[j].name)
  }

  /** Incrementing one entry raises the sum by one. */
  lemma {:induction false} SumIncrement(acc: seq<CategoryCount>, i: nat, e: CategoryCount)
    requires i < |acc| && e.value == acc[i].value + 1
    ensures Sum(acc[i := e]) == Sum(acc) + 1
  {
    var n := |acc| - 1;
    if i == n {
      assert acc[i := e][..n] == acc[..n];
    } else {
      assert acc[i := e][..n] == acc[..n][i := e];
      SumIncrement(acc[..n], i, e);
    }
  }

  /** Every step adds exactly one to the sum of the counts. */
  lemma BumpSum(acc: seq<CategoryCount>, c: string)
    ensures Sum(Bump(acc, c)) == Sum(acc) + 1
  {
    var k := IndexOfName(acc, c);
    if k < |acc| {
      SumIncrement(acc, k, CategoryCount(c, acc[k].value + 1));
    } else {
      assert (acc + [CategoryCount(c, 1)])[..|acc|] == acc;
    }
  }

  /** A step never introduces a second entry with the same name. */
  lemma BumpDistinct(acc: seq<CategoryCount>, c: string)
    requires DistinctNames(acc)
    ensures DistinctNames(Bump(acc, c))
  {
  }

  /** A step keeps the entries in step with the buckets seen so far. */
  lemma BumpBuckets(acc: seq<CategoryCount>, cs: seq<string>, c: string)
    requires SameBuckets(acc, cs)
    ensures SameBuckets(Bump(acc, c), cs + [c])
  {
    var acc' := Bump(acc, c);
    forall d | d in cs + [c]
      ensures IndexOfName(acc', d) < |acc'|
    {
      var m := if d == c then (if IndexOfName(acc, c) < |acc| then IndexOfName(acc, c) else |acc|)
               else IndexOfName(acc, d);
      assert m < |acc'| && acc'[m].name == d;
    }
  }

  /** A step keeps every count equal to the number of occurrences seen so far. */
  lemma BumpCounts(acc: seq<CategoryCount>, cs: seq<string>, c: string)
    requires DistinctNames(acc) && SameBuckets(acc, cs) && CountsOccurrences(acc, cs)
    ensures CountsOccurrences(Bump(acc, c), cs + [c])
  {
    assert multiset(cs + [c]) == multiset(cs) + multiset{c};
    if IndexOfName(acc, c) == |acc| {
      assert c !in cs;
    }
  }

  /** A bucket already seen keeps its first position when more buckets follow. */
  lemma {:induction false} FirstIndexAppend(cs: seq<string>, d: string, c: string)
    requires c in cs
    ensures FirstIndex(cs + [d], c) == FirstIndex(cs, c)
  {
    if cs[0] != c {
      assert (cs + [d])[1..] == cs[1..] + [d];
      FirstIndexAppend(cs[1..], d, c);
    }
  }

  /** A bucket seen for the first time at the end sits at the last position. */
  lemma {:induction false} FirstIndexNew(cs: seq<string>, d: string)
    requires d !in cs
    ensures FirstIndex(cs + [d], d) == |cs|
  {
    if cs != [] {
      assert (cs + [d])[1..] == cs[1..] + [d];
      FirstIndexNew(cs[1..], d);
    }
  }

  /** A step keeps the entries in first-occurrence order; a new bucket goes last. */
  lemma BumpOrder(acc: seq<CategoryCount>, cs: seq<string>, c: string)
    requires SameBuckets(acc, cs) && FirstOccurrenceOrder(acc, cs)
    ensures FirstOccurrenceOrder(Bump(acc, c), cs + [c])
  {
    var cs' := cs + [c];
    var acc' := Bump(acc, c);
    var isNew := IndexOfName(acc, c) == |acc|;
    assert |acc'| == if isNew then |acc| + 1 else |acc|;
    assert forall i :: 0 <= i < |acc| ==> acc'[i].name == acc[i].name;
    if isNew {
      assert c !in cs;
      FirstIndexNew(cs, c);
    }
    forall i, j | 0 <= i < j < |acc'| && acc'[i].name in cs' && acc'[j].name in cs'
      ensures FirstIndex(cs', acc'[i].name) < FirstIndex(cs', acc'[j].name)
    {
      var ni := acc[i].name;
      assert ni in cs;
      FirstIndexAppend(cs, c, ni);
      if j < |acc| {
        var nj := acc[j].name;
        assert nj in cs;
        FirstIndexAppend(cs, c, nj);
      } else {
        assert acc'[j].name == c;
      }
    }
  }

  lemma CategoriesSnoc(places: seq<Place>)
    requires places != []
    ensures Categories(places) ==
            Categories(places[..|places| - 1]) + [CategoryOf(places[|places| - 1])]
  {
  }

  /**
   * The tally of a list of places has distinct names, one per bucket that
   * occurs, each counting its bucket's occurrences, in first-occurrence
   * order, and the counts sum to the number of places.
   */
  lemma {:induction false} TallyCorrect(places: seq<Place>)
    ensures DistinctNames(Tally(places))
    ensures SameBuckets(Tally(places), Categories(places))
    ensures CountsOccurrences(Tally(places), Categories(places))
    ensures FirstOccurrenceOrder(Tally(places), Categories(places))
    ensures Sum(Tally(places)) == |places|
  {
    if places != [] {
      var n := |places| - 1;
      var acc, cs, c := Tally(places[..n]), Categories(places[..n]), CategoryOf(places[n]);
      TallyCorrect(places[..n]);
      CategoriesSnoc(places);
      assert Tally(places) == Bump(acc, c);
      BumpDistinct(acc, c);
      BumpBuckets(acc, cs, c);
      BumpCounts(acc, cs, c);
      BumpOrder(acc, cs, c);
      BumpSum(acc, c);
    }
  }

  /**
   * `acc.find(item => item.name === name)`: the position of the first
   * entry with that name, if any.
   */
  method FindEntry(acc: seq<CategoryCount>, name: string) returns (found: Option<nat>)
    ensures found.Some? ==> found.value < |acc| && acc[found.value].name == name
    ensures found.Some? ==> forall j :: 0 <= j < found.value ==> acc[j].name != name
    ensures found.None? ==> forall j :: 0 <= j < |acc| ==> acc[j].name != name
  {
    var i := 0;
    while i < |acc|
      invariant 0 <= i <= |acc|
      invariant forall j :: 0 <= j < i ==> acc[j].name != name
    {
      if acc[i].name == name {
        return Some(i);
      }
      i := i + 1;
    }
    return None;
  }

  lemma TallyPrefixStep(places: seq<Place>, k: nat)
    requires k < |places|
    ensures Tally(places[..k + 1]) == Bump(Tally(places[..k]), CategoryOf(places[k]))
  {
    assert places[..k + 1][..k] == places[..k];
  }

  /**
   * The reducer's callback: the entry of the place's bucket is incremented
   * in place, or a new entry with count 1 is pushed at the end.
   */
  method CountPlace(acc: seq<CategoryCount>, place: Place) returns (next: seq<CategoryCount>)
    ensures next == Bump(acc, CategoryOf(place))
  {
    var category := CategoryOf(place);
    var existing := FindEntry(acc, category);
    match existing {
      case Some(i) =>
        assert i == IndexOfName(acc, category);
        next := acc[i := CategoryCount(acc[i].name, acc[i].value + 1)];
      case None =>
        next := acc + [CategoryCount(category, 1)];
    }
  }

  /**
   * The per-category counts the charts display, built by one pass over
   * the places that increments an existing entry or appends a new one.
   */
  method CategoryTally(places: seq<Place>) returns (tally: seq<CategoryCount>)
    ensures tally == Tally(places)
    ensures DistinctNames(tally)
    ensures SameBuckets(tally, Categories(places))
    ensures CountsOccurrences(tally, Categories(places))
    ensures forall i :: 0 <= i < |tally| ==> tally[i].value >= 1
    ensures FirstOccurrenceOrder(tally, Categories(places))
    ensures Sum(tally) == |places|
    ensures |tally| > 0 <==> ShowsCharts(places)
  {
    tally := [];
    var k := 0;
    while k < |places|
      invariant 0 <= k <= |places|
      invariant tally == Tally(places[..k])
    {
      tally := CountPlace(tally, places[k]);
      TallyPrefixStep(places, k);
      k := k + 1;
    }
    assert places[..k] == places;
    TallyCorrect(places);
    if |places| > 0 {
      assert Categories(places)[0] in Categories(places);
    }
  }

  /** The colour of the chart cell at `index`, always taken from the palette. */
  function CellColor(index: nat): (color: string)
    ensures color in Colors
    ensures index < |Colors| ==> color == Colors[index]
  {
    Colors[index % |Colors|]
  }

  /** The palette repeats every six cells. */
  lemma CellColorRepeats(index: nat)
    ensures CellColor(index + |Colors|) == CellColor(index)
  {
    assert (index + 6) % 6 == index % 6;
  }

  /** The charts are drawn only when there are places; otherwise the no-data message shows. */
  predicate ShowsCharts(places: seq<Place>)
  {
    |places| > 0
  }
}
