/** Preference-aware food selection: filtering by dislikes and dietary restrictions,
    sorting into five buckets, ordering each bucket, and handing out foods without
    repeats for the length of one generation run. */
module FoodSelection {
  import opened MenuTypes

  /** One row of the user's food preferences. */
  datatype Preference = Preference(foodName: string, liked: bool)

  // ---------------------------------------------------------------- lower-casing

  function LowerChar(c: char): char
  {
    if 'A' <= c <= 'Z' then (c as int + 32) as char else c
  }

  /** `toLowerCase` on the ASCII letters. */
  function Lower(s: string): (r: string)
    ensures |r| == |s|
    ensures forall i :: 0 <= i < |s| ==> r[i] == LowerChar(s[i])
  {
    seq(|s|, i requires 0 <= i < |s| => LowerChar(s[i]))
  }

  function LowerAll(xs: seq<string>): (r: seq<string>)
    ensures |r| == |xs|
    ensures forall i :: 0 <= i < |xs| ==> r[i] == Lower(xs[i])
  {
    seq(|xs|, i requires 0 <= i < |xs| => Lower(xs[i]))
  }

  // ---------------------------------------------------------------- preference sets

  /** The lower-cased names of the liked foods. */
  function LikedNames(preferences: seq<Preference>): (names: set<string>)
    ensures forall p :: p in preferences && p.liked ==> Lower(p.foodName) in names
    ensures forall n :: n in names ==> exists p :: p in preferences && p.liked && Lower(p.foodName) == n
  {
    set p | p in preferences && p.liked :: Lower(p.foodName)
  }

  /** The lower-cased names of the disliked foods. The `liked` column may hold null,
      which the source's `!p.liked` also counts as disliked: such a row has
      `liked == false` in its `Preference`. */
  function DislikedNames(preferences: seq<Preference>): (names: set<string>)
    ensures forall p :: p in preferences && !p.liked ==> Lower(p.foodName) in names
    ensures forall n :: n in names ==> exists p :: p in preferences && !p.liked && Lower(p.foodName) == n
  {
    set p | p in preferences && !p.liked :: Lower(p.foodName)
  }

  predicate IsLiked(liked: set<string>, food: Food)
  {
    Lower(food.name) in liked
  }

  // ---------------------------------------------------------------- restrictions

  /** Synonyms from restriction names to catalog tags. */
  const RestrictionTags: map<string, string> := map[
    "vegan" := "vegan",
    "vegetarian" := "vegetarian",
    "gluten-free" := "gluten-free",
    "dairy-free" := "dairy-free",
    "halal" := "halal",
    "kosher" := "kosher",
    "nut-free" := "nut-free"
  ]

  /** `mapRestrictionToTag`: every table row maps a name to itself and any other name
      falls through unchanged, so the mapping is the identity. */
  function MapRestrictionToTag(restriction: string): (tag: string)
    ensures tag == restriction
  {
    if restriction in RestrictionTags then RestrictionTags[restriction] else restriction
  }

  /** The restriction filter: every restriction's tag is among the food's lower-cased
      tags (an empty restriction list passes everything). */
  predicate MeetsAll(restrictions: seq<string>, tags: seq<string>)
  {
    forall i :: 0 <= i < |restrictions| ==> MapRestrictionToTag(restrictions[i]) in LowerAll(tags)
  }

  /** Matching is conjunctive and needs no synonym table: a food passes exactly when
      each restriction literally occurs among its lower-cased tags. */
  lemma MeetsAllIsConjunctive(restrictions: seq<string>, tags: seq<string>)
    ensures MeetsAll(restrictions, tags) <==> forall r :: r in restrictions ==> r in LowerAll(tags)
    ensures restrictions == [] ==> MeetsAll(restrictions, tags)
  {
    if MeetsAll(restrictions, tags) {
      forall r | r in restrictions ensures r in LowerAll(tags) {
        var i :| 0 <= i < |restrictions| && restrictions[i] == r;
        assert MapRestrictionToTag(restrictions[i]) == r;
      }
    }
  }

  // ---------------------------------------------------------------- filtering

  /** The food survives filtering: not disliked, and meets every restriction. */
  predicate Keeps(disliked: set<string>, restrictions: seq<string>, food: Food)
  {
    Lower(food.name) !in disliked && MeetsAll(restrictions, food.tags)
  }

  /** `a` is `b` with some elements left out, order kept. */
  predicate IsSubsequence(a: seq<Food>, b: seq<Food>)
    decreases |b|
  {
    if a == [] then true
    else if b == [] then false
    else (a[0] == b[0] && IsSubsequence(a[1..], b[1..])) || IsSubsequence(a, b[1..])
  }

  /** `filterFoods`: keeps, in catalog order, exactly the foods that are neither
      disliked nor in breach of a restriction. */
  function FilterFoods(disliked: set<string>, restrictions: seq<string>, foods: seq<Food>): (r: seq<Food>)
    ensures IsSubsequence(r, foods)
    ensures forall f :: f in r <==> f in foods && Keeps(disliked, restrictions, f)
  {
    if foods == [] then []
    else
      var rest := FilterFoods(disliked, restrictions, foods[1..]);
      if Keeps(disliked, restrictions, foods[0]) then
        assert [foods[0]] + rest == [foods[0]] + rest;
        [foods[0]] + rest
      else
        rest
  }

  // ---------------------------------------------------------------- buckets

  datatype Bucket = Proteins | Carbs | Fats | Vegetables | Fruits

  /** The bucket a food is routed to: its own category, except that a mixed food counts
      as a protein from 10 g of protein per 100 g up, and as a carb below that. */
  function BucketOf(food: Food): (b: Bucket)
    ensures food.category == Mixed ==> (b == Proteins <==> food.proteinPer100g >= 10.0)
    ensures food.category == Mixed ==> (b == Carbs <==> food.proteinPer100g < 10.0)
    ensures food.category != Mixed ==> b == NativeBucket(food.category)
  {
    match food.category
    case Protein => Proteins
    case Carb => Carbs
    case Fat => Fats
    case Vegetable => Vegetables
    case Fruit => Fruits
    case Mixed => if food.proteinPer100g >= 10.0 then Proteins else Carbs
  }

  function NativeBucket(c: FoodCategory): Bucket
    requires c != Mixed
  {
    match c
    case Protein => Proteins
    case Carb => Carbs
    case Fat => Fats
    case Vegetable => Vegetables
    case Fruit => Fruits
  }

  /** The foods routed to bucket `b`, in input order. */
  function InBucket(foods: seq<Food>, b: Bucket): seq<Food>
  {
    if foods == [] then []
    else InBucket(foods[..|foods| - 1], b) + (if BucketOf(foods[|foods| - 1]) == b then [foods[|foods| - 1]] else [])
  }

  /** A food is in a bucket exactly when it is an input routed there. */
  lemma {:induction false} InBucketMembers(foods: seq<Food>, b: Bucket)
    ensures forall f :: f in InBucket(foods, b) <==> f in foods && BucketOf(f) == b
  {
    if foods != [] {
      InBucketMembers(foods[..|foods| - 1], b);
      assert foods == foods[..|foods| - 1] + [foods[|foods| - 1]];
    }
  }

  function BucketsUnion(foods: seq<Food>): multiset<Food>
  {
    multiset(InBucket(foods, Proteins)) + multiset(InBucket(foods, Carbs)) +
    multiset(InBucket(foods, Fats)) + multiset(InBucket(foods, Vegetables)) +
    multiset(InBucket(foods, Fruits))
  }

  /** Appending a food adds it to its own bucket and to no other. */
  lemma BucketsUnionSnoc(init: seq<Food>, x: Food)
    ensures BucketsUnion(init + [x]) == BucketsUnion(init) + multiset{x}
  {
    var foods := init + [x];
    InBucketSnoc(init, x, Proteins);
    InBucketSnoc(init, x, Carbs);
    InBucketSnoc(init, x, Fats);
    InBucketSnoc(init, x, Vegetables);
    InBucketSnoc(init, x, Fruits);
    AddToOneBucket(
      multiset(InBucket(init, Proteins)), multiset(InBucket(init, Carbs)), multiset(InBucket(init, Fats)),
      multiset(InBucket(init, Vegetables)), multiset(InBucket(init, Fruits)),
      multiset(InBucket(foods, Proteins)), multiset(InBucket(foods, Carbs)), multiset(InBucket(foods, Fats)),
      multiset(InBucket(foods, Vegetables)), multiset(InBucket(foods, Fruits)),
      x, BucketOf(x));
  }

  /** Adding one food to exactly one of five buckets adds it once to their union. */
  lemma AddToOneBucket(p: multiset<Food>, c: multiset<Food>, f: multiset<Food>, v: multiset<Food>, u: multiset<Food>,
                       p': multiset<Food>, c': multiset<Food>, f': multiset<Food>, v': multiset<Food>, u': multiset<Food>,
                       x: Food, k: Bucket)
    requires p' == p + (if k == Proteins then multiset{x} else multiset{})
    requires c' == c + (if k == Carbs then multiset{x} else multiset{})
    requires f' == f + (if k == Fats then multiset{x} else multiset{})
    requires v' == v + (if k == Vegetables then multiset{x} else multiset{})
    requires u' == u + (if k == Fruits then multiset{x} else multiset{})
    ensures p' + c' + f' + v' + u' == p + c + f + v + u + multiset{x}
  {
    forall y ensures (p' + c' + f' + v' + u')[y] == (p + c + f + v + u + multiset{x})[y] {
      assert (p' + c' + f' + v' + u')[y] == p'[y] + c'[y] + f'[y] + v'[y] + u'[y];
      assert (p + c + f + v + u + multiset{x})[y] == p[y] + c[y] + f[y] + v[y] + u[y] + multiset{x}[y];
    }
  }

  lemma InBucketSnoc(init: seq<Food>, x: Food, b: Bucket)
    ensures multiset(InBucket(init + [x], b)) ==
      multiset(InBucket(init, b)) + (if BucketOf(x) == b then multiset{x} else multiset{})
  {
    assert (init + [x])[..|init + [x]| - 1] == init;
  }

  /** The five buckets partition the input: every food lands in exactly one, as often
      as it occurs. */
  lemma {:induction false} BucketsPartition(foods: seq<Food>)
    ensures BucketsUnion(foods) == multiset(foods)
  {
    if foods != [] {
      var init, x := foods[..|foods| - 1], foods[|foods| - 1];
      BucketsPartition(init);
      assert foods == init + [x];
      BucketsUnionSnoc(init, x);
    }
  }

  // ---------------------------------------------------------------- ordering

  /** The name order: code-point lexicographic. `localeCompare` collates instead, so
      mixed-case names can order differently here ("Banana" before "apple"); what the
      model uses of the order is only that it is total, transitive and antisymmetric. */
  predicate NameLeq(a: string, b: string)
  {
    if a == [] then true
    else if b == [] then false
    else if a[0] < b[0] then true
    else if a[0] > b[0] then false
    else NameLeq(a[1..], b[1..])
  }

  lemma {:induction false} NameLeqTotal(a: string, b: string)
    ensures NameLeq(a, b) || NameLeq(b, a)
  {
    if a != [] && b != [] && a[0] == b[0] {
      NameLeqTotal(a[1..], b[1..]);
    }
  }

  lemma {:induction false} NameLeqTransitive(a: string, b: string, c: string)
    requires NameLeq(a, b) && NameLeq(b, c)
    ensures NameLeq(a, c)
  {
    if a != [] && b != [] && c != [] && a[0] == b[0] && b[0] == c[0] {
      NameLeqTransitive(a[1..], b[1..], c[1..]);
    }
  }

  lemma {:induction false} NameLeqAntisymmetric(a: string, b: string)
    requires NameLeq(a, b) && NameLeq(b, a)
    ensures a == b
  {
    if a != [] && b != [] {
      NameLeqAntisymmetric(a[1..], b[1..]);
      assert a == [a[0]] + a[1..] && b == [b[0]] + b[1..];
    }
  }

  /** The comparator of `sortByPreference`, as "a may come before b": a liked food
      before a non-liked one, otherwise by name. */
  predicate PreferenceLeq(liked: set<string>, a: Food, b: Food)
    ensures IsLiked(liked, a) && !IsLiked(liked, b) ==> PreferenceLeq(liked, a, b)
    ensures !IsLiked(liked, a) && IsLiked(liked, b) ==> !PreferenceLeq(liked, a, b)
    ensures IsLiked(liked, a) == IsLiked(liked, b) ==> (PreferenceLeq(liked, a, b) <==> NameLeq(a.name, b.name))
  {
    var aLiked, bLiked := IsLiked(liked, a), IsLiked(liked, b);
    if aLiked && !bLiked then true
    else if !aLiked && bLiked then false
    else NameLeq(a.name, b.name)
  }

  lemma PreferenceLeqTotal(liked: set<string>, a: Food, b: Food)
    ensures PreferenceLeq(liked, a, b) || PreferenceLeq(liked, b, a)
  {
    NameLeqTotal(a.name, b.name);
  }

  lemma PreferenceLeqTransitive(liked: set<string>, a: Food, b: Food, c: Food)
    requires PreferenceLeq(liked, a, b) && PreferenceLeq(liked, b, c)
    ensures PreferenceLeq(liked, a, c)
  {
    if IsLiked(liked, a) == IsLiked(liked, b) == IsLiked(liked, c) {
      NameLeqTransitive(a.name, b.name, c.name);
    }
  }

  predicate SortedByPreference(liked: set<string>, s: seq<Food>)
  {
    forall i, j :: 0 <= i < j < |s| ==> PreferenceLeq(liked, s[i], s[j])
  }

  /** Insert into an ordered list before the first element it may precede. */
  function Insert(liked: set<string>, x: Food, s: seq<Food>): seq<Food>
  {
    if s == [] then [x]
    else if PreferenceLeq(liked, x, s[0]) then [x] + s
    else [s[0]] + Insert(liked, x, s[1..])
  }

  lemma {:induction false} InsertCorrect(liked: set<string>, x: Food, s: seq<Food>)
    requires SortedByPreference(liked, s)
    ensures SortedByPreference(liked, Insert(liked, x, s))
    ensures multiset(Insert(liked, x, s)) == multiset(s) + multiset{x}
  {
    if s == [] {
    } else if PreferenceLeq(liked, x, s[0]) {
      forall j | 0 < j < |s| ensures PreferenceLeq(liked, x, s[j]) {
        PreferenceLeqTransitive(liked, x, s[0], s[j]);
      }
    } else {
      var rest := Insert(liked, x, s[1..]);
      InsertCorrect(liked, x, s[1..]);
      assert s == [s[0]] + s[1..];
      PreferenceLeqTotal(liked, x, s[0]);
      HeadBoundsInsert(liked, x, s, rest);
      SortedCons(liked, s[0], rest);
    }
  }

  /** The head of a sorted list is below everything in it and below `x`, so it is
      below everything in the tail with `x` inserted. */
  lemma HeadBoundsInsert(liked: set<string>, x: Food, s: seq<Food>, rest: seq<Food>)
    requires s != [] && SortedByPreference(liked, s) && PreferenceLeq(liked, s[0], x)
    requires multiset(rest) == multiset(s[1..]) + multiset{x}
    ensures forall k :: 0 <= k < |rest| ==> PreferenceLeq(liked, s[0], rest[k])
  {
    forall k | 0 <= k < |rest| ensures PreferenceLeq(liked, s[0], rest[k]) {
      assert rest[k] in multiset(rest);
      if rest[k] != x {
        assert rest[k] in multiset(s[1..]);
        var j :| 0 <= j < |s[1..]| && s[1..][j] == rest[k];
        assert s[j + 1] == rest[k];
      }
    }
  }

  /** A sorted list stays sorted under a head that is below all of it. */
  lemma SortedCons(liked: set<string>, h: Food, rest: seq<Food>)
    requires SortedByPreference(liked, rest)
    requires forall k :: 0 <= k < |rest| ==> PreferenceLeq(liked, h, rest[k])
    ensures SortedByPreference(liked, [h] + rest)
  {
    var r := [h] + rest;
    forall i, j | 0 <= i < j < |r| ensures PreferenceLeq(liked, r[i], r[j]) {
      if i > 0 {
        assert r[i] == rest[i - 1] && r[j] == rest[j - 1];
      } else {
        assert r[j] == rest[j - 1];
      }
    }
  }

  /** `sortByPreference`: a reordering of the bucket that puts liked foods first and
      orders by name inside each group. */
  function SortByPreference(liked: set<string>, foods: seq<Food>): (r: seq<Food>)
    ensures SortedByPreference(liked, r)
    ensures multiset(r) == multiset(foods)
  {
    if foods == [] then []
    else
      var rest := SortByPreference(liked, foods[1..]);
      InsertCorrect(liked, foods[0], rest);
      MultisetOfConsTail(foods);
      Insert(liked, foods[0], rest)
  }

  lemma MultisetOfConsTail(foods: seq<Food>)
    requires foods != []
    ensures multiset(foods) == multiset(foods[1..]) + multiset{foods[0]}
  {
    assert foods == [foods[0]] + foods[1..];
  }

  /** What the order means: no non-liked food precedes a liked one, and foods of the
      same group are in name order. */
  lemma SortedMeansLikedFirstThenByName(liked: set<string>, s: seq<Food>, i: int, j: int)
    requires SortedByPreference(liked, s)
    requires 0 <= i < j < |s|
    ensures IsLiked(liked, s[j]) ==> IsLiked(liked, s[i])
    ensures IsLiked(liked, s[i]) == IsLiked(liked, s[j]) ==> NameLeq(s[i].name, s[j].name)
  {
    assert PreferenceLeq(liked, s[i], s[j]);
  }

  predicate DistinctNames(s: seq<Food>)
  {
    forall i, j :: 0 <= i < j < |s| ==> s[i].name != s[j].name
  }

  /** Two sorted arrangements of the same foods with distinct names start alike. */
  lemma SortedHeadsAgree(liked: set<string>, a: seq<Food>, b: seq<Food>)
    requires SortedByPreference(liked, a) && SortedByPreference(liked, b)
    requires multiset(a) == multiset(b) && DistinctNames(a) && a != []
    ensures b != [] && a[0] == b[0]
  {
    assert a[0] in multiset(b);
    assert b != [];
    assert b[0] in multiset(a);
    var i :| 0 <= i < |b| && b[i] == a[0];
    var j :| 0 <= j < |a| && a[j] == b[0];
    if j != 0 && i != 0 {
      assert PreferenceLeq(liked, a[0], a[j]);
      assert PreferenceLeq(liked, b[0], b[i]);
      PreferenceOrderIsStrict(liked, a[0], a[j]);
    }
  }

  /** With unique names the order is strict, so the sorted bucket is fully determined:
      any two preference-sorted arrangements of the same foods are equal. */
  lemma {:induction false} SortedArrangementIsUnique(liked: set<string>, a: seq<Food>, b: seq<Food>)
    requires SortedByPreference(liked, a) && SortedByPreference(liked, b)
    requires multiset(a) == multiset(b)
    requires DistinctNames(a)
    ensures a == b
  {
    if a == [] {
      assert |b| == |multiset(b)| == 0;
    } else {
      SortedHeadsAgree(liked, a, b);
      SortedTail(liked, a);
      SortedTail(liked, b);
      DistinctTail(a);
      MultisetOfConsTail(a);
      MultisetOfConsTail(b);
      MultisetCancel(multiset(a[1..]), multiset(b[1..]), a[0]);
      SortedArrangementIsUnique(liked, a[1..], b[1..]);
      ConsTail(a);
      ConsTail(b);
    }
  }

  lemma SortedTail(liked: set<string>, s: seq<Food>)
    requires s != [] && SortedByPreference(liked, s)
    ensures SortedByPreference(liked, s[1..])
  {
    forall i, j | 0 <= i < j < |s| - 1 ensures PreferenceLeq(liked, s[1..][i], s[1..][j]) {
      assert s[1..][i] == s[i + 1] && s[1..][j] == s[j + 1];
    }
  }

  lemma DistinctTail(s: seq<Food>)
    requires s != [] && DistinctNames(s)
    ensures DistinctNames(s[1..])
  {
    forall i, j | 0 <= i < j < |s| - 1 ensures s[1..][i].name != s[1..][j].name {
      assert s[1..][i] == s[i + 1] && s[1..][j] == s[j + 1];
    }
  }

  lemma MultisetCancel(x: multiset<Food>, y: multiset<Food>, e: Food)
    requires x + multiset{e} == y + multiset{e}
    ensures x == y
  {
    assert x == (x + multiset{e}) - multiset{e};
    assert y == (y + multiset{e}) - multiset{e};
  }

  lemma ConsTail(s: seq<Food>)
    requires s != []
    ensures s == [s[0]] + s[1..]
  {
  }

  /** Two foods that may each precede the other have the same name. */
  lemma PreferenceOrderIsStrict(liked: set<string>, x: Food, y: Food)
    requires PreferenceLeq(liked, x, y) && PreferenceLeq(liked, y, x)
    ensures x.name == y.name
  {
    NameLeqAntisymmetric(x.name, y.name);
  }

  /** `categorizeFoods` as a value: each bucket's foods, in preference order. */
  function Categorized(liked: set<string>, foods: seq<Food>): CategorizedFoods
  {
    CategorizedFoods(
      SortByPreference(liked, InBucket(foods, Proteins)),
      SortByPreference(liked, InBucket(foods, Carbs)),
      SortByPreference(liked, InBucket(foods, Fats)),
      SortByPreference(liked, InBucket(foods, Vegetables)),
      SortByPreference(liked, InBucket(foods, Fruits)))
  }

  function BucketFoods(c: CategorizedFoods, b: Bucket): seq<Food>
  {
    match b
    case Proteins => c.proteins
    case Carbs => c.carbs
    case Fats => c.fats
    case Vegetables => c.vegetables
    case Fruits => c.fruits
  }

  /** Each categorized bucket holds exactly the foods routed there, each as often as
      it occurs, already in preference order. */
  lemma CategorizedBuckets(liked: set<string>, foods: seq<Food>, b: Bucket)
    ensures multiset(BucketFoods(Categorized(liked, foods), b)) == multiset(InBucket(foods, b))
    ensures SortedByPreference(liked, BucketFoods(Categorized(liked, foods), b))
    ensures forall f :: f in BucketFoods(Categorized(liked, foods), b) <==> f in foods && BucketOf(f) == b
  {
    InBucketMembers(foods, b);
    var s := BucketFoods(Categorized(liked, foods), b);
    forall f ensures f in s <==> f in InBucket(foods, b) {
      assert f in s <==> f in multiset(s);
    }
  }

  /** The food is in one of the five buckets. */
  predicate InSomeBucket(c: CategorizedFoods, f: Food)
  {
    f in c.proteins || f in c.carbs || f in c.fats || f in c.vegetables || f in c.fruits
  }

  /** Nothing reaches a bucket that was not among the foods categorized. */
  lemma CategorizedFoodsComeFromInput(liked: set<string>, foods: seq<Food>, f: Food)
    requires InSomeBucket(Categorized(liked, foods), f)
    ensures f in foods
  {
    var b := BucketHolding(Categorized(liked, foods), f);
    CategorizedBuckets(liked, foods, b);
  }

  /** A bucket that holds the food. */
  function BucketHolding(c: CategorizedFoods, f: Food): (b: Bucket)
    requires InSomeBucket(c, f)
    ensures f in BucketFoods(c, b)
  {
    if f in c.proteins then Proteins else if f in c.carbs then Carbs else if f in c.fats then Fats
    else if f in c.vegetables then Vegetables else Fruits
  }

  // ---------------------------------------------------------------- selection

  /** Index of the first food whose id is not yet used, or |foods| if there is none. */
  function FirstUnused(foods: seq<Food>, used: set<int>): (k: nat)
    ensures k <= |foods|
    ensures forall j :: 0 <= j < k ==> foods[j].id in used
    ensures k < |foods| ==> foods[k].id !in used
  {
    if foods == [] then 0
    else if foods[0].id !in used then 0
    else 1 + FirstUnused(foods[1..], used)
  }

  /** The liked foods of a list, in list order. */
  function LikedAmong(liked: set<string>, foods: seq<Food>): (r: seq<Food>)
    ensures IsSubsequence(r, foods)
    ensures forall f :: f in r <==> f in foods && IsLiked(liked, f)
  {
    if foods == [] then []
    else
      var rest := LikedAmong(liked, foods[1..]);
      if IsLiked(liked, foods[0]) then
        assert [foods[0]] + rest == [foods[0]] + rest;
        [foods[0]] + rest
      else
        rest
  }

  /** `l` is the position of the first liked food of the list. */
  predicate IsFirstLiked(liked: set<string>, foods: seq<Food>, l: int)
  {
    0 <= l < |foods| && IsLiked(liked, foods[l]) && forall j :: 0 <= j < l ==> !IsLiked(liked, foods[j])
  }

  /** The first element of `LikedAmong` is the first liked food of the list. */
  lemma {:induction false} FirstLiked(liked: set<string>, foods: seq<Food>)
    requires LikedAmong(liked, foods) != []
    ensures exists l :: IsFirstLiked(liked, foods, l) && foods[l] == LikedAmong(liked, foods)[0]
  {
    if !IsLiked(liked, foods[0]) {
      var tail := foods[1..];
      FirstLiked(liked, tail);
      var l :| IsFirstLiked(liked, tail, l) && tail[l] == LikedAmong(liked, tail)[0];
      assert foods[l + 1] == tail[l];
      forall j | 0 <= j < l + 1 ensures !IsLiked(liked, foods[j]) {
        if j > 0 {
          assert foods[j] == tail[j - 1];
        }
      }
      assert IsFirstLiked(liked, foods, l + 1);
    } else {
      assert IsFirstLiked(liked, foods, 0);
    }
  }

  /** What one `selectFood` call returns and what the used set becomes. */
  datatype Selection = Selection(pick: Option<Food>, used: set<int>)

  /** `selectFood` as a value: the first unused food, marked used; once every food is
      used, the first liked food, else the first food, without marking; nothing for
      an empty list. */
  function SelectSpec(liked: set<string>, used: set<int>, foods: seq<Food>): (s: Selection)
    ensures s.pick.None? <==> foods == []
    ensures s.pick.Some? ==> s.pick.value in foods
    ensures used <= s.used
  {
    var k := FirstUnused(foods, used);
    if k < |foods| then Selection(Some(foods[k]), used + {foods[k].id})
    else
      var likedAvailable := LikedAmong(liked, foods);
      if |likedAvailable| > 0 then Selection(Some(likedAvailable[0]), used)
      else if |foods| > 0 then Selection(Some(foods[0]), used)
      else Selection(None, used)
  }

  /** With an unused food left, the first one is returned and exactly its id is added. */
  lemma SelectTakesFirstUnused(liked: set<string>, used: set<int>, foods: seq<Food>, k: nat)
    requires k < |foods| && foods[k].id !in used
    requires forall j :: 0 <= j < k ==> foods[j].id in used
    ensures SelectSpec(liked, used, foods) == Selection(Some(foods[k]), used + {foods[k].id})
  {
    assert FirstUnused(foods, used) == k;
  }

  /** Once every food is used, the used set stays as it is and the first liked food is
      repeated, or the first food when none is liked. */
  lemma SelectWhenExhausted(liked: set<string>, used: set<int>, foods: seq<Food>)
    requires foods != []
    requires forall j :: 0 <= j < |foods| ==> foods[j].id in used
    ensures SelectSpec(liked, used, foods).used == used
    ensures (exists l :: 0 <= l < |foods| && IsLiked(liked, foods[l])) ==>
      exists l :: IsFirstLiked(liked, foods, l) && SelectSpec(liked, used, foods).pick == Some(foods[l])
    ensures (forall l :: 0 <= l < |foods| ==> !IsLiked(liked, foods[l])) ==>
      SelectSpec(liked, used, foods).pick == Some(foods[0])
  {
    assert FirstUnused(foods, used) == |foods|;
    if exists l :: 0 <= l < |foods| && IsLiked(liked, foods[l]) {
      var l :| 0 <= l < |foods| && IsLiked(liked, foods[l]);
      assert foods[l] in LikedAmong(liked, foods);
      FirstLiked(liked, foods);
    }
  }

  /** The picks and the final used set of `n` successive selections from one list. */
  datatype Run = Run(picks: seq<Option<Food>>, used: set<int>)

  function SelectRun(liked: set<string>, used: set<int>, foods: seq<Food>, n: nat): (r: Run)
    ensures |r.picks| == n
  {
    if n == 0 then Run([], used)
    else
      var prev := SelectRun(liked, used, foods, n - 1);
      var s := SelectSpec(liked, prev.used, foods);
      Run(prev.picks + [s.pick], s.used)
  }

  predicate DistinctIds(foods: seq<Food>)
  {
    forall i, j :: 0 <= i < j < |foods| ==> foods[i].id != foods[j].id
  }

  /** The ids of the first n foods. */
  function IdsOfPrefix(foods: seq<Food>, n: nat): set<int>
    requires n <= |foods|
  {
    set k | 0 <= k < n :: foods[k].id
  }

  /** No repeats until the list is exhausted: on a fresh selector, the first n calls on
      a list of foods with distinct ids return its first n foods, in order, and mark
      exactly their ids used. */
  lemma {:induction false} FreshRunTakesPrefix(liked: set<string>, foods: seq<Food>, n: nat)
    requires n <= |foods| && DistinctIds(foods)
    ensures forall k :: 0 <= k < n ==> SelectRun(liked, {}, foods, n).picks[k] == Some(foods[k])
    ensures SelectRun(liked, {}, foods, n).used == IdsOfPrefix(foods, n)
  {
    if n > 0 {
      FreshRunTakesPrefix(liked, foods, n - 1);
      var prev := SelectRun(liked, {}, foods, n - 1);
      IdsOfPrefixGrows(foods, n - 1);
      SelectTakesFirstUnused(liked, prev.used, foods, n - 1);
      var r := SelectRun(liked, {}, foods, n);
      assert r.picks == prev.picks + [Some(foods[n - 1])];
      forall k | 0 <= k < n ensures r.picks[k] == Some(foods[k]) {
        if k < n - 1 {
          assert r.picks[k] == prev.picks[k];
        }
      }
    }
  }

  /** The prefix's ids grow by one new id per food when the ids are distinct. */
  lemma IdsOfPrefixGrows(foods: seq<Food>, n: nat)
    requires n < |foods| && DistinctIds(foods)
    ensures foods[n].id !in IdsOfPrefix(foods, n)
    ensures forall j :: 0 <= j < n ==> foods[j].id in IdsOfPrefix(foods, n)
    ensures IdsOfPrefix(foods, n + 1) == IdsOfPrefix(foods, n) + {foods[n].id}
  {
  }

  /** In particular the first n picks are pairwise different. */
  lemma FreshRunHasNoRepeats(liked: set<string>, foods: seq<Food>, n: nat, i: nat, j: nat)
    requires n <= |foods| && DistinctIds(foods)
    requires i < j < n
    ensures SelectRun(liked, {}, foods, n).picks[i] != SelectRun(liked, {}, foods, n).picks[j]
  {
    FreshRunTakesPrefix(liked, foods, n);
  }

  // ---------------------------------------------------------------- the selector

  /** The selector of one generation run. The preference sets and restrictions are
      fixed at construction; the set of used food ids grows as foods are handed out. */
  class FoodSelector {
    const likedFoods: set<string>
    const dislikedFoods: set<string>
    const dietaryRestrictions: seq<string>
    var usedFoodIds: set<int>

    /** Liked and disliked name sets from the preference rows, lower-cased
        restrictions, and no food used yet. */
    constructor(preferences: seq<Preference>, restrictions: seq<string>)
      ensures likedFoods == LikedNames(preferences)
      ensures dislikedFoods == DislikedNames(preferences)
      ensures dietaryRestrictions == LowerAll(restrictions)
      ensures usedFoodIds == {}
    {
      likedFoods := LikedNames(preferences);
      dislikedFoods := DislikedNames(preferences);
      dietaryRestrictions := LowerAll(restrictions);
      usedFoodIds := {};
    }

    /** `meetsRestrictions`: the loop over the restrictions with its early exit. */
    method MeetsRestrictions(tags: seq<string>) returns (ok: bool)
      ensures ok <==> MeetsAll(dietaryRestrictions, tags)
    {
      if |dietaryRestrictions| == 0 {
        return true;
      }
      var tagsLower := LowerAll(tags);
      for i := 0 to |dietaryRestrictions|
        invariant forall j :: 0 <= j < i ==> MapRestrictionToTag(dietaryRestrictions[j]) in tagsLower
      {
        var requiredTag := MapRestrictionToTag(dietaryRestrictions[i]);
        if requiredTag !in tagsLower {
          return false;
        }
      }
      return true;
    }

    /** `categorizeFoods`: route each food to its bucket, then order every bucket. */
    method CategorizeFoods(foods: seq<Food>) returns (c: CategorizedFoods)
      ensures c == Categorized(likedFoods, foods)
    {
      var proteins, carbs, fats, vegetables, fruits := [], [], [], [], [];
      for i := 0 to |foods|
        invariant proteins == InBucket(foods[..i], Proteins)
        invariant carbs == InBucket(foods[..i], Carbs)
        invariant fats == InBucket(foods[..i], Fats)
        invariant vegetables == InBucket(foods[..i], Vegetables)
        invariant fruits == InBucket(foods[..i], Fruits)
      {
        assert foods[..i + 1][..i] == foods[..i];
        var food := foods[i];
        match food.category
        case Protein => proteins := proteins + [food];
        case Carb => carbs := carbs + [food];
        case Fat => fats := fats + [food];
        case Vegetable => vegetables := vegetables + [food];
        case Fruit => fruits := fruits + [food];
        case Mixed =>
          if food.proteinPer100g >= 10.0 {
            proteins := proteins + [food];
          } else {
            carbs := carbs + [food];
          }
      }
      assert foods[..|foods|] == foods;
      c := CategorizedFoods(
        SortByPreference(likedFoods, proteins),
        SortByPreference(likedFoods, carbs),
        SortByPreference(likedFoods, fats),
        SortByPreference(likedFoods, vegetables),
        SortByPreference(likedFoods, fruits));
    }

    /** `getCategorizedFoods`, with the catalog passed in: filter, then categorize. */
    method GetCategorizedFoods(catalog: seq<Food>) returns (c: CategorizedFoods)
      ensures c == Categorized(likedFoods, FilterFoods(dislikedFoods, dietaryRestrictions, catalog))
    {
      var filtered := FilterFoods(dislikedFoods, dietaryRestrictions, catalog);
      c := CategorizeFoods(filtered);
    }

    /** `selectFood`: the first food not yet used is returned and marked used; when all
        are used, a liked food or else the first one is repeated. */
    method SelectFood(foods: seq<Food>) returns (r: Option<Food>)
      modifies this`usedFoodIds
      ensures Selection(r, usedFoodIds) == SelectSpec(likedFoods, old(usedFoodIds), foods)
    {
      for i := 0 to |foods|
        invariant usedFoodIds == old(usedFoodIds)
        invariant forall j :: 0 <= j < i ==> foods[j].id in usedFoodIds
      {
        if foods[i].id !in usedFoodIds {
          SelectTakesFirstUnused(likedFoods, usedFoodIds, foods, i);
          usedFoodIds := usedFoodIds + {foods[i].id};
          return Some(foods[i]);
        }
      }
      assert FirstUnused(foods, usedFoodIds) == |foods|;
      var likedAvailable := LikedAmong(likedFoods, foods);
      if |likedAvailable| > 0 {
        return Some(likedAvailable[0]);
      }
      return if |foods| > 0 then Some(foods[0]) else None;
    }

    /** `resetUsedFoods`: forget every food handed out so far. */
    method ResetUsedFoods()
      modifies this`usedFoodIds
      ensures usedFoodIds == {}
    {
      usedFoodIds := {};
    }
  }
}
