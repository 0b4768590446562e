/** The sequence builder of the drill player (`generateDrillSequence`):
    for every phrase pair one English item, then the Chinese item once per
    repetition, all keyed by the pair's English text. */
module DrillSequence {
  import opened Text

  const EN_US: string := "en-US"
  const ZH_CN: string := "zh-CN"

  /** One English/Mandarin pairing drilled together. */
  datatype PhrasePair = PhrasePair(english: string, chinese: string)

  /** One step of a drill: what to speak, in which language, what to show,
      and the key under which its repetitions are counted. */
  datatype DrillItem = DrillItem(text: string, lang: string, displayLabel: string, phraseId: string)

  /** How many times the counting loop `for (i = 0; i < repetitions; i++)` runs. */
  function ChineseCount(repetitions: int): nat
  {
    if repetitions <= 0 then 0 else repetitions
  }

  /** The length of one pair's block of items. */
  function BlockLength(repetitions: int): nat
  {
    ChineseCount(repetitions) + 1
  }

  function EnglishItem(pair: PhrasePair): DrillItem
  {
    DrillItem(pair.english, EN_US, pair.english, pair.english)
  }

  function ChineseItem(pair: PhrasePair): DrillItem
  {
    DrillItem(pair.chinese, ZH_CN, pair.chinese, pair.english)
  }

  /** The items one pair contributes: its English item, then its Chinese items. */
  function Block(pair: PhrasePair, repetitions: int): seq<DrillItem>
  {
    [EnglishItem(pair)] + Repeat(ChineseItem(pair), ChineseCount(repetitions))
  }

  /** The drill sequence, pair by pair in the given order. */
  function DrillSpec(pairs: seq<PhrasePair>, repetitions: int): seq<DrillItem>
    decreases |pairs|
  {
    if pairs == [] then []
    else DrillSpec(pairs[..|pairs| - 1], repetitions) + Block(pairs[|pairs| - 1], repetitions)
  }

  /** `generateDrillSequence`: pushes the English item of every pair, then
      its Chinese item in a counting loop. */
  method GenerateDrillSequence(pairs: seq<PhrasePair>, repetitions: int) returns (sequence: seq<DrillItem>)
    ensures sequence == DrillSpec(pairs, repetitions)
  {
    sequence := [];
    for k := 0 to |pairs|
      invariant sequence == DrillSpec(pairs[..k], repetitions)
    {
      var pair := pairs[k];
      ghost var before := sequence;
      sequence := sequence + [DrillItem(pair.english, EN_US, pair.english, pair.english)];
      var i := 0;
      while i < repetitions
        invariant 0 <= i <= ChineseCount(repetitions)
        invariant sequence == before + [EnglishItem(pair)] + Repeat(ChineseItem(pair), i)
      {
        sequence := sequence + [DrillItem(pair.chinese, ZH_CN, pair.chinese, pair.english)];
        i := i + 1;
      }
      assert pairs[..k + 1][..k] == pairs[..k];
    }
    assert pairs[..|pairs|] == pairs;
  }

  /** The sequence has exactly one block per pair; no pairs, no items. */
  lemma {:induction false} DrillLength(pairs: seq<PhrasePair>, repetitions: int)
    ensures |DrillSpec(pairs, repetitions)| == |pairs| * BlockLength(repetitions)
    ensures pairs == [] ==> DrillSpec(pairs, repetitions) == []
    decreases |pairs|
  {
    if pairs != [] {
      var n := |pairs|;
      DrillLength(pairs[..n - 1], repetitions);
      assert n * BlockLength(repetitions) == (n - 1) * BlockLength(repetitions) + BlockLength(repetitions);
    }
  }

  /** The sequence built from the first `k` pairs is a prefix of the whole
      sequence: later pairs only append. */
  lemma {:induction false} DrillPrefix(pairs: seq<PhrasePair>, repetitions: int, k: nat)
    requires k <= |pairs|
    ensures var front := DrillSpec(pairs[..k], repetitions);
      |front| <= |DrillSpec(pairs, repetitions)| && DrillSpec(pairs, repetitions)[..|front|] == front
    decreases |pairs| - k
  {
    if k < |pairs| {
      var n := |pairs|;
      DrillPrefix(pairs[..n - 1], repetitions, k);
      assert pairs[..n - 1][..k] == pairs[..k];
    } else {
      assert pairs[..k] == pairs;
    }
  }

  /** Item `j` of the block of pair `k` sits at position `k * (r + 1) + j`:
      the English text for `j == 0`, the Chinese text otherwise; the label is
      always the spoken text and the progress key always the pair's English. */
  lemma DrillAt(pairs: seq<PhrasePair>, repetitions: int, k: nat, j: nat)
    requires k < |pairs| && j < BlockLength(repetitions)
    ensures k * BlockLength(repetitions) + j < |DrillSpec(pairs, repetitions)|
    ensures var item := DrillSpec(pairs, repetitions)[k * BlockLength(repetitions) + j];
      && item.text == (if j == 0 then pairs[k].english else pairs[k].chinese)
      && item.lang == (if j == 0 then EN_US else ZH_CN)
      && item.displayLabel == item.text
      && item.phraseId == pairs[k].english
  {
    var front := DrillSpec(pairs[..k], repetitions);
    var upTo := DrillSpec(pairs[..k + 1], repetitions);
    DrillLength(pairs[..k], repetitions);
    assert pairs[..k + 1][..k] == pairs[..k];
    assert upTo == front + Block(pairs[k], repetitions);
    DrillPrefix(pairs, repetitions, k + 1);
    assert upTo[|front| + j] == Block(pairs[k], repetitions)[j];
  }

  /** `a <= c` implies `a * b <= c * b` for naturals. */
  lemma {:induction false} MulMonotone(a: nat, c: nat, b: nat)
    requires a <= c
    ensures a * b <= c * b
    decreases c - a
  {
    if a < c {
      MulMonotone(a + 1, c, b);
    }
  }

  /** Position `i` of `m` blocks of length `b` is item `i % b` of block `i / b`. */
  lemma {:induction false} BlockPosition(i: nat, b: nat, m: nat)
    requires 0 < b && i < m * b
    ensures 0 <= i / b < m && 0 <= i % b < b && (i / b) * b + i % b == i
  {
    if i / b >= m {
      MulMonotone(m, i / b, b);
    }
  }

  /** Every position of the sequence belongs to the block of pair `i / (r + 1)`:
      its first item is English, the rest Chinese. */
  lemma DrillItemAt(pairs: seq<PhrasePair>, repetitions: int, i: nat)
    requires i < |DrillSpec(pairs, repetitions)|
    ensures i / BlockLength(repetitions) < |pairs|
    ensures DrillSpec(pairs, repetitions)[i] ==
      var pair := pairs[i / BlockLength(repetitions)];
      if i % BlockLength(repetitions) == 0 then EnglishItem(pair) else ChineseItem(pair)
  {
    var b := BlockLength(repetitions);
    DrillLength(pairs, repetitions);
    BlockPosition(i, b, |pairs|);
    DrillAt(pairs, repetitions, i / b, i % b);
  }
}
