/**
 * The gift catalog of the christmas-shop page (service/Gifts.js).
 *
 * The catalog holds a list of gift records, derives a ranked order, a random
 * order and three category filters from it, and renders cards into two page
 * regions ("best" and "all"). A rendered card is modelled by the meta record
 * it carries (the gift plus its picture and style key); the HTML text around
 * it is not modelled.
 */
module Catalog {

  import opened Wrappers

  // ---------------------------------------------------------------------------
  // Data model
  // ---------------------------------------------------------------------------

  /** The four superpower ratings of a gift (0..500 in steps of 100 in the data). */
  datatype Superpowers = Superpowers(live: int, create: int, love: int, dream: int)
  {
    /** The ratings as (name, rating) entries, in the order the record lists its keys. */
    function Entries(): (es: seq<(string, int)>)
      ensures |es| == 4
    {
      [("live", live), ("create", create), ("love", love), ("dream", dream)]
    }
  }

  datatype Gift = Gift(name: string, description: string, category: string, superpowers: Superpowers)

  /** One row of the category table: display name, short alias and picture path. */
  datatype GiftCategory = GiftCategory(name: string, alias: string, picture: string)

  datatype Categories = Categories(all: GiftCategory, work: GiftCategory, health: GiftCategory, harmony: GiftCategory)

  datatype GiftConfig = GiftConfig(bestAmount: int, categories: Categories)

  /** The record a card carries: the gift, unchanged, plus the picture and style key derived from its category. */
  datatype GiftMeta = GiftMeta(gift: Gift, picture: string, styleModifier: string)

  /** Errors the catalog raises: failed category lookups, and reading an attribute of a missing card element. */
  datatype Error = NoPicture(category: string) | NoStyleModifier(category: string) | NullCard

  datatype Result<T> = Ok(value: T) | Err(error: Error)

  datatype Outcome = Pass | Fail(error: Error)

  /** A page region: its container is missing, still holds the page's own markup, or holds rendered cards. */
  datatype Region = Absent | Untouched | Rendered(cards: seq<GiftMeta>)

  /** What a click inside a region lands on: no card at all, or a card whose payload attribute may be missing. */
  datatype CardTarget = Outside | Card(payload: Option<GiftMeta>)

  // ---------------------------------------------------------------------------
  // Sequence helpers
  // ---------------------------------------------------------------------------

  /** r can be obtained from s by deleting elements, keeping the order of the rest. */
  ghost predicate IsSubsequence<T>(r: seq<T>, s: seq<T>)
    decreases |s|
  {
    r == [] || (s != [] && ((r[0] == s[0] && IsSubsequence(r[1..], s[1..])) || IsSubsequence(r, s[1..])))
  }

  /** Array.prototype.filter: the elements of s that keep accepts, in their original order. */
  function Filter<T>(s: seq<T>, keep: T -> bool): (r: seq<T>)
    ensures |r| <= |s|
  {
    if s == [] then []
    else if keep(s[0]) then [s[0]] + Filter(s[1..], keep)
    else Filter(s[1..], keep)
  }

  /** The filter keeps the order of what it keeps. */
  lemma {:induction false} FilterIsSubsequence<T>(s: seq<T>, keep: T -> bool)
    ensures IsSubsequence(Filter(s, keep), s)
  {
    if s != [] {
      FilterIsSubsequence(s[1..], keep);
      if keep(s[0]) {
        var r := Filter(s, keep);
        assert r[0] == s[0] && r[1..] == Filter(s[1..], keep);
      }
    }
  }

  /** An element is in the filter's result exactly when it is in s and accepted. */
  lemma {:induction false} FilterMembers<T>(s: seq<T>, keep: T -> bool, x: T)
    ensures x in Filter(s, keep) <==> x in s && keep(x)
  {
    if s != [] {
      FilterMembers(s[1..], keep, x);
      assert s == [s[0]] + s[1..];
    }
  }

  /** The filter keeps every copy of an accepted element and no copy of a rejected one. */
  lemma {:induction false} FilterCount<T>(s: seq<T>, keep: T -> bool, x: T)
    ensures multiset(Filter(s, keep))[x] == if keep(x) then multiset(s)[x] else 0
  {
    if s != [] {
      FilterCount(s[1..], keep, x);
      assert s == [s[0]] + s[1..];
      assert multiset(s) == multiset{s[0]} + multiset(s[1..]);
      if keep(s[0]) {
        assert multiset(Filter(s, keep)) == multiset{s[0]} + multiset(Filter(s[1..], keep));
      }
    }
  }

  lemma {:induction false} FilterAppend<T>(a: seq<T>, b: seq<T>, keep: T -> bool)
    ensures Filter(a + b, keep) == Filter(a, keep) + Filter(b, keep)
  {
    if a == [] {
      assert a + b == b;
    } else {
      var ab := a + b;
      assert ab[0] == a[0] && ab[1..] == a[1..] + b;
      FilterAppend(a[1..], b, keep);
    }
  }

  function Min(a: int, b: int): int { if a <= b then a else b }

  function Max(a: int, b: int): int { if a >= b then a else b }

  /** Array.prototype.slice(0, end): a negative end counts back from the end of s. */
  function Slice<T>(s: seq<T>, end: int): (r: seq<T>)
    ensures r <= s
    ensures 0 <= end ==> |r| == Min(end, |s|)
    ensures end < 0 ==> |r| == Max(|s| + end, 0)
  {
    s[..if end < 0 then Max(|s| + end, 0) else Min(end, |s|)]
  }

  // ---------------------------------------------------------------------------
  // Scores and the ranked order (the `best` getter)
  // ---------------------------------------------------------------------------

  /** values.reduce((total, value) => total + value, acc): a left fold. */
  function SumFrom(acc: int, values: seq<int>): int
    decreases |values|
  {
    if values == [] then acc else SumFrom(acc + values[0], values[1..])
  }

  lemma {:induction false} SumFromShift(acc: int, values: seq<int>)
    ensures SumFrom(acc, values) == acc + SumFrom(0, values)
    decreases |values|
  {
    if values != [] {
      SumFromShift(acc + values[0], values[1..]);
      SumFromShift(values[0], values[1..]);
    }
  }

  /** The ratings of a gift, in key order (Object.values). */
  function Values(p: Superpowers): (vs: seq<int>)
    ensures |vs| == |p.Entries()|
    ensures forall i :: 0 <= i < |vs| ==> vs[i] == p.Entries()[i].1
  {
    [p.live, p.create, p.love, p.dream]
  }

  /** #getTotalSuperpowers: the fold of the gift's ratings starting at 0. */
  function Total(g: Gift): int
  {
    SumFrom(0, Values(g.superpowers))
  }

  /** The total score is the plain sum of the four ratings. */
  lemma TotalIsSumOfRatings(g: Gift)
    ensures Total(g) == g.superpowers.live + g.superpowers.create + g.superpowers.love + g.superpowers.dream
  {
    var p := g.superpowers;
    var vs := Values(p);
    SumFromShift(p.live, vs[1..]);
    SumFromShift(p.create, vs[2..]);
    SumFromShift(p.love, vs[3..]);
  }

  /** s is ordered by non-increasing key. */
  predicate SortedBy<T>(s: seq<T>, key: T -> int)
  {
    forall i, j :: 0 <= i < j < |s| ==> key(s[i]) >= key(s[j])
  }

  /**
   * Inserts x into a list ordered by non-increasing key, in front of every
   * element whose key is not larger than x's: x goes before those it ties with.
   */
  function Insert<T>(x: T, ranked: seq<T>, key: T -> int): (r: seq<T>)
    ensures multiset(r) == multiset(ranked) + multiset{x}
  {
    if ranked == [] then [x]
    else if key(ranked[0]) > key(x) then
      assert ranked == [ranked[0]] + ranked[1..];
      [ranked[0]] + Insert(x, ranked[1..], key)
    else
      [x] + ranked
  }

  lemma SortedCons<T>(h: T, t: seq<T>, key: T -> int)
    requires SortedBy(t, key)
    requires forall j :: 0 <= j < |t| ==> key(h) >= key(t[j])
    ensures SortedBy([h] + t, key)
  {
  }

  lemma {:induction false} InsertSorted<T>(x: T, ranked: seq<T>, key: T -> int)
    requires SortedBy(ranked, key)
    ensures SortedBy(Insert(x, ranked, key), key)
  {
    if ranked == [] {
    } else if key(ranked[0]) > key(x) {
      var rest := Insert(x, ranked[1..], key);
      InsertSorted(x, ranked[1..], key);
      forall j | 0 <= j < |rest| ensures key(ranked[0]) >= key(rest[j]) {
        assert rest[j] in multiset(rest);
        if rest[j] != x {
          assert rest[j] in multiset(ranked[1..]);
          var i :| 0 <= i < |ranked[1..]| && ranked[1..][i] == rest[j];
          assert ranked[1..][i] == ranked[i + 1];
        }
      }
      SortedCons(ranked[0], rest, key);
    } else {
      SortedCons(x, ranked, key);
    }
  }

  /**
   * Array.prototype.toSorted with the comparator key(b) - key(a): a stable
   * sort by non-increasing key.
   */
  function Ranked<T>(s: seq<T>, key: T -> int): (r: seq<T>)
    ensures multiset(r) == multiset(s)
    ensures |r| == |s|
    ensures SortedBy(r, key)
  {
    if s == [] then []
    else
      assert s == [s[0]] + s[1..];
      InsertSorted(s[0], Ranked(s[1..], key), key);
      Insert(s[0], Ranked(s[1..], key), key)
  }

  /** The `best` getter: the gifts ranked by descending total score. */
  function Best(all: seq<Gift>): seq<Gift>
  {
    Ranked(all, Total)
  }

  /** The elements of s whose key is k, in their order in s. */
  function WithKey<T>(s: seq<T>, key: T -> int, k: int): seq<T>
  {
    Filter(s, (x: T) => key(x) == k)
  }

  lemma {:induction false} FilterInsert<T>(x: T, ranked: seq<T>, key: T -> int, keep: T -> bool, k: int)
    requires forall y :: keep(y) <==> key(y) == k
    ensures Filter(Insert(x, ranked, key), keep)
         == if keep(x) then [x] + Filter(ranked, keep) else Filter(ranked, keep)
  {
    if ranked == [] {
      assert Insert(x, ranked, key) == [x];
    } else if key(ranked[0]) > key(x) {
      var rest := Insert(x, ranked[1..], key);
      assert Insert(x, ranked, key) == [ranked[0]] + rest;
      assert ranked == [ranked[0]] + ranked[1..];
      FilterAppend([ranked[0]], rest, keep);
      FilterAppend([ranked[0]], ranked[1..], keep);
      FilterInsert(x, ranked[1..], key, keep, k);
    } else {
      FilterAppend([x], ranked, keep);
    }
  }

  lemma {:induction false} FilterRanked<T>(s: seq<T>, key: T -> int, keep: T -> bool, k: int)
    requires forall y :: keep(y) <==> key(y) == k
    ensures Filter(Ranked(s, key), keep) == Filter(s, keep)
  {
    if s != [] {
      var rest := Ranked(s[1..], key);
      assert Ranked(s, key) == Insert(s[0], rest, key);
      FilterRanked(s[1..], key, keep, k);
      FilterInsert(s[0], rest, key, keep, k);
      assert s == [s[0]] + s[1..];
      FilterAppend([s[0]], s[1..], keep);
    }
  }

  /**
   * Stability of the sort: for every key value, the elements with that key
   * appear in the ranked order exactly as they appear in s.
   */
  lemma RankedIsStable<T>(s: seq<T>, key: T -> int, k: int)
    ensures WithKey(Ranked(s, key), key, k) == WithKey(s, key, k)
  {
    FilterRanked(s, key, (x: T) => key(x) == k, k);
  }

  // ---------------------------------------------------------------------------
  // The random order (the `random` getter)
  // ---------------------------------------------------------------------------

  /** s without its k-th element. */
  function RemoveAt<T>(s: seq<T>, k: nat): (r: seq<T>)
    requires k < |s|
    ensures |r| == |s| - 1
  {
    s[..k] + s[k + 1..]
  }

  lemma RemoveAtMultiset<T>(s: seq<T>, k: nat)
    requires k < |s|
    ensures multiset(s) == multiset{s[k]} + multiset(RemoveAt(s, k))
  {
    assert s == s[..k] + [s[k]] + s[k + 1..];
  }

  /**
   * The `random` getter. The random comparator is replaced by a sequence of
   * draws: each draw is the position, among the gifts left, of the gift
   * that comes next. A missing or out-of-range draw picks the first gift left.
   */
  function Shuffled<T>(s: seq<T>, draws: seq<nat>): (r: seq<T>)
    ensures |r| == |s|
    decreases |s|
  {
    if s == [] then []
    else
      var k := if draws != [] && draws[0] < |s| then draws[0] else 0;
      [s[k]] + Shuffled(RemoveAt(s, k), if draws == [] then [] else draws[1..])
  }

  /** The random order is a permutation of the list. */
  lemma {:induction false} ShuffledIsPermutation<T>(s: seq<T>, draws: seq<nat>)
    ensures multiset(Shuffled(s, draws)) == multiset(s)
    decreases |s|
  {
    if s != [] {
      var k := if draws != [] && draws[0] < |s| then draws[0] else 0;
      ShuffledIsPermutation(RemoveAt(s, k), if draws == [] then [] else draws[1..]);
      RemoveAtMultiset(s, k);
    }
  }

  /** A first draw k below the number of gifts puts the k-th gift first. */
  lemma ShuffledFirstDraw<T>(s: seq<T>, k: nat, more: seq<nat>, t: seq<T>)
    requires k < |s| && t != [] && s[k] == t[0]
    requires Shuffled(RemoveAt(s, k), more) == t[1..]
    ensures Shuffled(s, [k] + more) == t
  {
  }

  /** Taking the same element off two permutations of each other leaves permutations. */
  lemma TailPermutation<T>(s: seq<T>, k: nat, t: seq<T>)
    requires k < |s| && t != [] && s[k] == t[0]
    requires multiset(t) == multiset(s)
    ensures multiset(t[1..]) == multiset(RemoveAt(s, k))
  {
    RemoveAtMultiset(s, k);
    RemoveAtMultiset(t, 0);
    assert t[..0] + t[1..] == t[1..];
    var a, b := multiset(t[1..]), multiset(RemoveAt(s, k));
    assert multiset{t[0]} + a == multiset{t[0]} + b;
    assert a == (multiset{t[0]} + a) - multiset{t[0]};
    assert b == (multiset{t[0]} + b) - multiset{t[0]};
  }

  /** Every permutation of s is the random order for some draws. */
  lemma {:induction false} ShuffledReachesEveryPermutation<T>(s: seq<T>, t: seq<T>) returns (draws: seq<nat>)
    requires multiset(t) == multiset(s)
    ensures Shuffled(s, draws) == t
    decreases |s|
  {
    if s == [] {
      assert |t| == |multiset(t)| == 0;
      draws := [];
    } else {
      assert t[0] in s by {
        assert |t| == |multiset(s)| == |s|;
        assert t[0] in multiset(t);
      }
      var k :| 0 <= k < |s| && s[k] == t[0];
      TailPermutation(s, k, t);
      var more := ShuffledReachesEveryPermutation(RemoveAt(s, k), t[1..]);
      draws := [k] + more;
      ShuffledFirstDraw(s, k, more, t);
    }
  }

  // ---------------------------------------------------------------------------
  // Category filters (the `work`, `health` and `harmony` getters)
  // ---------------------------------------------------------------------------

  /** The gifts of s whose category is exactly name, in their order in s. */
  function ByCategory(s: seq<Gift>, name: string): (r: seq<Gift>)
    ensures IsSubsequence(r, s)
    ensures forall g :: g in r <==> g in s && g.category == name
  {
    var r := Filter(s, (g: Gift) => g.category == name);
    assert IsSubsequence(r, s) by { FilterIsSubsequence(s, (g: Gift) => g.category == name); }
    assert forall g :: g in r <==> g in s && g.category == name by {
      forall g ensures g in r <==> g in s && g.category == name {
        FilterMembers(s, (g: Gift) => g.category == name, g);
      }
    }
    r
  }

  /** A category filter keeps every copy of a gift of that category. */
  lemma ByCategoryKeepsCopies(s: seq<Gift>, name: string, g: Gift)
    ensures multiset(ByCategory(s, name))[g] == if g.category == name then multiset(s)[g] else 0
  {
    FilterCount(s, (x: Gift) => x.category == name, g);
  }

  // ---------------------------------------------------------------------------
  // Picture and style lookup, cards
  // ---------------------------------------------------------------------------

  /** The category names the lookups know: those of work, harmony and health (not the catch-all's). */
  predicate Known(cats: Categories, category: string)
  {
    category == cats.work.name || category == cats.harmony.name || category == cats.health.name
  }

  /** #getPicture: the first of work, harmony, health whose name is the category; otherwise an error. */
  function Picture(cats: Categories, category: string): (r: Result<string>)
    ensures r.Ok? <==> Known(cats, category)
    ensures r.Err? ==> r.error == NoPicture(category)
  {
    if category == cats.work.name then Ok(cats.work.picture)
    else if category == cats.harmony.name then Ok(cats.harmony.picture)
    else if category == cats.health.name then Ok(cats.health.picture)
    else Err(NoPicture(category))
  }

  /** #getStyleModifier: the same case order as Picture, yielding the category's alias. */
  function StyleModifier(cats: Categories, category: string): (r: Result<string>)
    ensures r.Ok? <==> Known(cats, category)
    ensures r.Err? ==> r.error == NoStyleModifier(category)
  {
    if category == cats.work.name then Ok(cats.work.alias)
    else if category == cats.harmony.name then Ok(cats.harmony.alias)
    else if category == cats.health.name then Ok(cats.health.alias)
    else Err(NoStyleModifier(category))
  }

  /** The three lookup categories have different names. */
  predicate DistinctNames(cats: Categories)
  {
    cats.work.name != cats.harmony.name && cats.work.name != cats.health.name && cats.harmony.name != cats.health.name
  }

  /**
   * With distinct names, a gift of the work, harmony or health category gets
   * that category's picture and alias; the catch-all category's name, when
   * it differs from the three, is not found.
   */
  lemma LookupFollowsTable(cats: Categories, c: GiftCategory)
    requires DistinctNames(cats)
    requires c == cats.work || c == cats.harmony || c == cats.health
    ensures Picture(cats, c.name) == Ok(c.picture)
    ensures StyleModifier(cats, c.name) == Ok(c.alias)
    ensures !Known(cats, cats.all.name) ==> Picture(cats, cats.all.name) == Err(NoPicture(cats.all.name))
  {
  }

  /** #giftToTemplate: the card's meta, or the picture lookup's error (looked up first). */
  function GiftToMeta(cats: Categories, g: Gift): (r: Result<GiftMeta>)
    ensures r.Ok? <==> Known(cats, g.category)
    ensures r.Ok? ==> r.value.gift == g
    ensures r.Ok? ==> Picture(cats, g.category) == Ok(r.value.picture)
    ensures r.Ok? ==> StyleModifier(cats, g.category) == Ok(r.value.styleModifier)
    ensures r.Err? ==> r.error == NoPicture(g.category)
  {
    match Picture(cats, g.category)
    case Err(e) => Err(e)
    case Ok(picture) =>
      match StyleModifier(cats, g.category)
      case Err(e) => Err(e)
      case Ok(styleModifier) => Ok(GiftMeta(g, picture, styleModifier))
  }

  /**
   * #giftsToTemplate: one card per gift, in order. The map stops at the
   * first gift whose category is not known, and the render fails with that
   * gift's error.
   */
  function Cards(cats: Categories, gifts: seq<Gift>): (r: Result<seq<GiftMeta>>)
    ensures r.Ok? <==> forall i :: 0 <= i < |gifts| ==> Known(cats, gifts[i].category)
    ensures r.Ok? ==> |r.value| == |gifts|
    ensures r.Ok? ==> forall i :: 0 <= i < |gifts| ==> GiftToMeta(cats, gifts[i]) == Ok(r.value[i])
    ensures r.Err? ==> exists i :: 0 <= i < |gifts| && !Known(cats, gifts[i].category)
                                   && (forall j :: 0 <= j < i ==> Known(cats, gifts[j].category))
                                   && r.error == NoPicture(gifts[i].category)
  {
    if gifts == [] then Ok([])
    else
      match GiftToMeta(cats, gifts[0])
      case Err(e) => assert !Known(cats, gifts[0].category); Err(e)
      case Ok(meta) =>
        var rest := Cards(cats, gifts[1..]);
        match rest
        case Err(e) =>
          ghost var i :| 0 <= i < |gifts[1..]| && !Known(cats, gifts[1..][i].category)
                        && (forall j :: 0 <= j < i ==> Known(cats, gifts[1..][j].category))
                        && e == NoPicture(gifts[1..][i].category);
          assert !Known(cats, gifts[i + 1].category);
          assert forall j :: 0 <= j < i + 1 ==> Known(cats, gifts[j].category) by {
            forall j | 0 <= j < i + 1 ensures Known(cats, gifts[j].category) {
              if j > 0 { assert gifts[j] == gifts[1..][j - 1]; }
            }
          }
          Err(e)
        case Ok(metas) =>
          assert forall i :: 1 <= i < |gifts| ==> gifts[i] == gifts[1..][i - 1];
          Ok([meta] + metas)
  }

  // ---------------------------------------------------------------------------
  // Selections rendered into the two regions
  // ---------------------------------------------------------------------------

  /** The gifts insertBest renders: the first bestAmount gifts of the random or the ranked order. */
  function BestPick(all: seq<Gift>, bestAmount: int, isRandom: bool, draws: seq<nat>): (r: seq<Gift>)
    ensures 0 <= bestAmount ==> |r| == Min(bestAmount, |all|)
    ensures r <= (if isRandom then Shuffled(all, draws) else Best(all))
    ensures !isRandom ==> forall i, j :: 0 <= i < |r| <= j < |all| ==> Total(r[i]) >= Total(Best(all)[j])
  {
    Slice(if isRandom then Shuffled(all, draws) else Best(all), bestAmount)
  }

  /**
   * The gifts insertAll renders for an alias, trying the aliases of all,
   * work, health and harmony in that order; None for any other alias.
   */
  function AllView(all: seq<Gift>, cats: Categories, alias: string): (r: Option<seq<Gift>>)
    ensures r.Some? <==> alias in {cats.all.alias, cats.work.alias, cats.health.alias, cats.harmony.alias}
    ensures r.Some? ==> IsSubsequence(r.value, all)
    ensures alias == cats.all.alias ==> r == Some(all)
  {
    if alias == cats.all.alias then
      assert IsSubsequence(all, all) by { SubsequenceReflexive(all); }
      Some(all)
    else if alias == cats.work.alias then Some(ByCategory(all, cats.work.name))
    else if alias == cats.health.alias then Some(ByCategory(all, cats.health.name))
    else if alias == cats.harmony.alias then Some(ByCategory(all, cats.harmony.name))
    else None
  }

  lemma {:induction false} SubsequenceReflexive<T>(s: seq<T>)
    ensures IsSubsequence(s, s)
  {
    if s != [] {
      SubsequenceReflexive(s[1..]);
    }
  }

  /** The four aliases are pairwise different. */
  predicate DistinctAliases(cats: Categories)
  {
    cats.all.alias != cats.work.alias && cats.all.alias != cats.health.alias && cats.all.alias != cats.harmony.alias
    && cats.work.alias != cats.health.alias && cats.work.alias != cats.harmony.alias
    && cats.health.alias != cats.harmony.alias
  }

  /** With distinct aliases, each category's alias selects exactly that category's filter. */
  lemma AliasSelectsCategory(all: seq<Gift>, cats: Categories, c: GiftCategory)
    requires DistinctAliases(cats)
    requires c == cats.work || c == cats.health || c == cats.harmony
    ensures AllView(all, cats, c.alias) == Some(ByCategory(all, c.name))
  {
  }

  // ---------------------------------------------------------------------------
  // The catalog object
  // ---------------------------------------------------------------------------

  class Gifts {
    /** The gift list (the public field `all`). */
    var all: seq<Gift>
    const config: GiftConfig
    var bestRegion: Region
    var allRegion: Region
    /** Whether a click listener is attached to at least one present container. */
    var listening: bool
    /** Every meta passed to the onClickGift callback, in call order. */
    var activations: seq<GiftMeta>

    /** The containers are looked up once; the list starts empty. */
    constructor (config: GiftConfig, hasBest: bool, hasAll: bool)
      ensures this.config == config && all == []
      ensures bestRegion == (if hasBest then Untouched else Absent)
      ensures allRegion == (if hasAll then Untouched else Absent)
      ensures !listening && activations == []
    {
      this.config := config;
      all := [];
      bestRegion := if hasBest then Untouched else Absent;
      allRegion := if hasAll then Untouched else Absent;
      listening := false;
      activations := [];
    }

    /**
     * insertBest: renders the best pick into the best region. An absent
     * region is left alone; a failed lookup leaves the region as it was.
     */
    method InsertBest(isRandom: bool, draws: seq<nat>) returns (r: Outcome)
      modifies this`bestRegion
      ensures old(bestRegion) == Absent ==> r == Pass && bestRegion == Absent
      ensures old(bestRegion) != Absent ==>
        match Cards(config.categories, BestPick(all, config.bestAmount, isRandom, draws))
        case Ok(cards) => r == Pass && bestRegion == Rendered(cards)
        case Err(e) => r == Fail(e) && bestRegion == old(bestRegion)
      ensures r == Pass && old(bestRegion) != Absent && 0 <= config.bestAmount ==>
        |bestRegion.cards| == Min(config.bestAmount, |all|)
    {
      if bestRegion == Absent {
        return Pass;
      }
      var gifts := BestPick(all, config.bestAmount, isRandom, draws);
      match Cards(config.categories, gifts)
      case Ok(cards) =>
        bestRegion := Rendered(cards);
        r := Pass;
      case Err(e) =>
        r := Fail(e);
    }

    /**
     * insertAll: renders the view an alias selects into the all region. An
     * absent region, an unknown alias or a failed lookup leave it as it was.
     */
    method InsertAll(alias: string) returns (r: Outcome)
      modifies this`allRegion
      ensures old(allRegion) == Absent ==> r == Pass && allRegion == Absent
      ensures old(allRegion) != Absent ==>
        match AllView(all, config.categories, alias)
        case None => r == Pass && allRegion == old(allRegion)
        case Some(gifts) =>
          match Cards(config.categories, gifts)
          case Ok(cards) => r == Pass && allRegion == Rendered(cards)
          case Err(e) => r == Fail(e) && allRegion == old(allRegion)
    {
      if allRegion == Absent {
        return Pass;
      }
      match AllView(all, config.categories, alias)
      case None =>
        r := Pass;
      case Some(gifts) =>
        match Cards(config.categories, gifts)
        case Ok(cards) =>
          allRegion := Rendered(cards);
          r := Pass;
        case Err(e) =>
          r := Fail(e);
    }

    /**
     * load, after the fetch: sets the list, renders the random best pick and
     * the "all" view, then attaches the click listeners. A render error
     * stops it at that point: a failed best pick leaves both regions as
     * they were, a failed "all" view leaves that region as it was after
     * the best pick was rendered, and no listener is attached. The error
     * is the first unknown gift of the failing render. Listeners go only
     * on the regions that are present.
     */
    method Load(gifts: seq<Gift>, draws: seq<nat>) returns (r: Outcome)
      modifies this`all, this`bestRegion, this`allRegion, this`listening
      ensures all == gifts
      ensures old(bestRegion) == Absent ==> bestRegion == Absent
      ensures old(allRegion) == Absent ==> allRegion == Absent
      ensures listening == (old(listening) || (r == Pass && (old(bestRegion) != Absent || old(allRegion) != Absent)))
      ensures var best := Cards(config.categories, BestPick(gifts, config.bestAmount, true, draws));
              var whole := Cards(config.categories, gifts);
              r == if old(bestRegion) != Absent && best.Err? then Fail(best.error)
                   else if old(allRegion) != Absent && whole.Err? then Fail(whole.error)
                   else Pass
      ensures old(bestRegion) != Absent ==>
        bestRegion == match Cards(config.categories, BestPick(gifts, config.bestAmount, true, draws))
                      case Ok(cards) => Rendered(cards)
                      case Err(_) => old(bestRegion)
      ensures r == Pass && old(bestRegion) != Absent ==>
        Cards(config.categories, BestPick(gifts, config.bestAmount, true, draws)).Ok?
      ensures r == Pass && old(allRegion) != Absent ==>
        var cards := Cards(config.categories, gifts);
        cards.Ok? && allRegion == Rendered(cards.value)
      ensures r.Fail? ==> allRegion == old(allRegion)
      ensures (forall g :: g in gifts ==> Known(config.categories, g.category)) ==> r == Pass
      ensures r.Fail? ==> exists g :: g in gifts && !Known(config.categories, g.category) && r.error == NoPicture(g.category)
    {
      all := gifts;
      ghost var order := Shuffled(gifts, draws);
      ghost var picked := BestPick(gifts, config.bestAmount, true, draws);
      r := InsertBest(true, draws);
      if r.Fail? {
        ghost var i :| 0 <= i < |picked| && !Known(config.categories, picked[i].category) && r.error == NoPicture(picked[i].category);
        ShuffledIsPermutation(gifts, draws);
        assert picked[i] == order[i] && order[i] in multiset(order);
        return;
      }
      r := InsertAll(config.categories.all.alias);
      if r.Fail? {
        return;
      }
      if bestRegion != Absent || allRegion != Absent {
        listening := true;
      }
    }

    /**
     * #clickHandler: a click outside any card fails reading the attribute of
     * the missing card; a card without a payload is ignored; otherwise the
     * callback receives the payload, once.
     */
    method ClickHandler(target: CardTarget) returns (r: Outcome)
      requires listening
      modifies this`activations
      ensures target.Outside? ==> r == Fail(NullCard) && activations == old(activations)
      ensures target.Card? && target.payload.None? ==> r == Pass && activations == old(activations)
      ensures target.Card? && target.payload.Some? ==> r == Pass && activations == old(activations) + [target.payload.value]
    {
      match target
      case Outside =>
        r := Fail(NullCard);
      case Card(payload) =>
        r := Pass;
        if payload.Some? {
          activations := activations + [payload.value];
        }
    }
  }
}
