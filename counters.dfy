/** The per-phrase repetition counters of the drill player: the session map
    (`phraseRepetitionCounts`) and the lifetime map (`lifetimeRepetitions`)
    both move by one when a Mandarin item starts. */
module Counters {
  import opened Text
  import opened DrillSequence

  /** `counts[id] || 0`: a key that was never counted reads as zero. */
  function Get(counts: map<string, nat>, id: string): nat
  {
    if id in counts then counts[id] else 0
  }

  /** The counter update `speakNext` makes when it starts `item`. */
  function Bump(counts: map<string, nat>, item: DrillItem): map<string, nat>
  {
    if item.lang == ZH_CN then counts[item.phraseId := Get(counts, item.phraseId) + 1] else counts
  }

  /** Starting a Mandarin item moves its phrase's counter by exactly one;
      any other item leaves the map as it was; no other key moves or
      appears. */
  lemma BumpCounts(counts: map<string, nat>, item: DrillItem)
    ensures item.lang == ZH_CN ==> Get(Bump(counts, item), item.phraseId) == Get(counts, item.phraseId) + 1
    ensures item.lang != ZH_CN ==> Bump(counts, item) == counts
    ensures forall id :: id != item.phraseId ==>
      Get(Bump(counts, item), id) == Get(counts, id) && (id in Bump(counts, item) <==> id in counts)
  {
  }

  /** `BumpCounts` read at one key. */
  lemma BumpAt(counts: map<string, nat>, item: DrillItem, id: string)
    ensures Get(Bump(counts, item), id) ==
      Get(counts, id) + (if item.lang == ZH_CN && item.phraseId == id then 1 else 0)
  {
  }

  /** The counters after starting every item of `items`, in order. */
  function Tally(counts: map<string, nat>, items: seq<DrillItem>): map<string, nat>
    decreases |items|
  {
    if items == [] then counts else Bump(Tally(counts, items[..|items| - 1]), items[|items| - 1])
  }

  /** How many of `pairs` have `id` as their English text. */
  function Occurrences(pairs: seq<PhrasePair>, id: string): nat
    decreases |pairs|
  {
    if pairs == [] then 0
    else Occurrences(pairs[..|pairs| - 1], id) + (if pairs[|pairs| - 1].english == id then 1 else 0)
  }

  /** Starting `a` and then `b` is starting `a + b`. */
  lemma {:induction false} TallyAppend(counts: map<string, nat>, a: seq<DrillItem>, b: seq<DrillItem>)
    ensures Tally(counts, a + b) == Tally(Tally(counts, a), b)
    decreases |b|
  {
    if b == [] {
      assert a + b == a;
    } else {
      var m := |b|;
      var ab := a + b;
      TallyAppend(counts, a, b[..m - 1]);
      assert ab[..|ab| - 1] == a + b[..m - 1] && ab[|ab| - 1] == b[m - 1];
      assert Tally(counts, ab) == Bump(Tally(counts, a + b[..m - 1]), b[m - 1]);
    }
  }

  /** Starting a non-empty list is starting its first item, then the rest;
      starting an empty list changes nothing. */
  lemma TallyCons(counts: map<string, nat>, items: seq<DrillItem>)
    ensures items != [] ==> Tally(counts, items) == Tally(Bump(counts, items[0]), items[1..])
    ensures items == [] ==> Tally(counts, items) == counts
  {
    if items != [] {
      TallyAppend(counts, items[..1], items[1..]);
      assert items[..1] + items[1..] == items;
      assert Tally(counts, items[..1]) == Bump(counts, items[0]) by {
        assert items[..1][..0] == [];
      }
    }
  }

  /** A run that starts the first item and then the rest ends where
      starting the whole list ends. */
  lemma TallyRun(counts: map<string, nat>, first: map<string, nat>, last: map<string, nat>, items: seq<DrillItem>)
    requires items != [] && first == Bump(counts, items[0]) && last == Tally(first, items[1..])
    ensures last == Tally(counts, items)
  {
    TallyCons(counts, items);
  }

  /** Starting the items from position i on is starting item i, then the
      items after it; from the end on, nothing is started. */
  lemma TallyFrom(counts: map<string, nat>, items: seq<DrillItem>, i: nat)
    requires i <= |items|
    ensures i < |items| ==> Tally(counts, items[i..]) == Tally(Bump(counts, items[i]), items[i + 1..])
    ensures i == |items| ==> Tally(counts, items[i..]) == counts
  {
    if i < |items| {
      TallyCons(counts, items[i..]);
      assert items[i..][1..] == items[i + 1..];
    } else {
      assert items[i..] == [];
    }
  }

  /** Starting `n` copies of one item moves its key by `n` when it is
      Mandarin and changes nothing when it is English. */
  lemma {:induction false} TallyRepeat(counts: map<string, nat>, item: DrillItem, n: nat, id: string)
    ensures Get(Tally(counts, Repeat(item, n)), id) ==
      Get(counts, id) + (if item.lang == ZH_CN && item.phraseId == id then n else 0)
  {
    if n > 0 {
      var items := Repeat(item, n);
      var prev := Tally(counts, Repeat(item, n - 1));
      TallyRepeat(counts, item, n - 1, id);
      assert items[..n - 1] == Repeat(item, n - 1) && items[n - 1] == item;
      assert Tally(counts, items) == Bump(prev, item);
      BumpAt(prev, item, id);
    }
  }

  /** A whole drill run adds `r` (the repetition count, when positive) to the
      counter of every phrase, once per pair carrying that English text, and
      leaves every other key where it was. */
  lemma {:induction false} TallyDrill(counts: map<string, nat>, pairs: seq<PhrasePair>, repetitions: int, id: string)
    ensures Get(Tally(counts, DrillSpec(pairs, repetitions)), id) ==
      Get(counts, id) + ChineseCount(repetitions) * Occurrences(pairs, id)
    decreases |pairs|
  {
    if pairs != [] {
      var n := |pairs|;
      var front := DrillSpec(pairs[..n - 1], repetitions);
      var last := pairs[n - 1];
      var c := ChineseCount(repetitions);
      var mid := Tally(counts, front);
      var block := Block(last, repetitions);
      var occ := Occurrences(pairs[..n - 1], id);
      var hit: nat := if last.english == id then 1 else 0;
      assert DrillSpec(pairs, repetitions) == front + block;
      assert Occurrences(pairs, id) == occ + hit;
      TallyDrill(counts, pairs[..n - 1], repetitions, id);
      TallyAppend(counts, front, block);
      TallyAppend(mid, [EnglishItem(last)], Repeat(ChineseItem(last), c));
      assert Tally(mid, [EnglishItem(last)]) == mid by {
        assert [EnglishItem(last)][..0] == [];
      }
      TallyRepeat(mid, ChineseItem(last), c, id);
      assert Get(Tally(counts, front + block), id) == Get(mid, id) + c * hit;
      Distribute(c, occ, hit);
      assert Get(Tally(counts, DrillSpec(pairs, repetitions)), id) == Get(counts, id) + c * (occ + hit);
      assert Get(Tally(counts, DrillSpec(pairs, repetitions)), id) == Get(counts, id) + ChineseCount(repetitions) * Occurrences(pairs, id);
    } else {
      assert ChineseCount(repetitions) * Occurrences(pairs, id) == 0;
      assert Get(Tally(counts, DrillSpec(pairs, repetitions)), id) == Get(counts, id) + ChineseCount(repetitions) * Occurrences(pairs, id);
    }
  }

  /** `TallyDrill` for every key at once. */
  lemma TallyDrillAll(counts: map<string, nat>, pairs: seq<PhrasePair>, repetitions: int)
    ensures forall id :: (Get(Tally(counts, DrillSpec(pairs, repetitions)), id) ==
      Get(counts, id) + ChineseCount(repetitions) * Occurrences(pairs, id))
  {
    forall id | true
      ensures Get(Tally(counts, DrillSpec(pairs, repetitions)), id) ==
        Get(counts, id) + ChineseCount(repetitions) * Occurrences(pairs, id)
    {
      TallyDrill(counts, pairs, repetitions, id);
    }
  }


  lemma Distribute(c: nat, a: nat, b: nat)
    ensures c * (a + b) == c * a + c * b
  {
  }

  /** With distinct English texts, a full run adds exactly `r` to each
      phrase's counter. */
  lemma TallyDrillDistinct(counts: map<string, nat>, pairs: seq<PhrasePair>, repetitions: int, k: nat)
    requires k < |pairs|
    requires forall i, j :: 0 <= i < j < |pairs| ==> pairs[i].english != pairs[j].english
    ensures Get(Tally(counts, DrillSpec(pairs, repetitions)), pairs[k].english) ==
      Get(counts, pairs[k].english) + ChineseCount(repetitions)
  {
    TallyDrill(counts, pairs, repetitions, pairs[k].english);
    OccurrencesDistinct(pairs, k);
  }

  lemma {:induction false} OccurrencesDistinct(pairs: seq<PhrasePair>, k: nat)
    requires k < |pairs|
    requires forall i, j :: 0 <= i < j < |pairs| ==> pairs[i].english != pairs[j].english
    ensures Occurrences(pairs, pairs[k].english) == 1
    decreases |pairs|
  {
    var n := |pairs|;
    if k < n - 1 {
      OccurrencesDistinct(pairs[..n - 1], k);
    } else {
      OccurrencesAbsent(pairs[..n - 1], pairs[k].english);
    }
  }

  lemma {:induction false} OccurrencesAbsent(pairs: seq<PhrasePair>, id: string)
    requires forall i :: 0 <= i < |pairs| ==> pairs[i].english != id
    ensures Occurrences(pairs, id) == 0
    decreases |pairs|
  {
    if pairs != [] {
      OccurrencesAbsent(pairs[..|pairs| - 1], id);
    }
  }
}
