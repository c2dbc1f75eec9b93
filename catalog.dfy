/**
 * The interval catalog and the filter that turns the checkbox flags into
 * the list of intervals a question may be drawn from.
 */
module Catalog {

  /** Semitone distance to display name, one entry per interval from a minor second to an octave. */
  const Intervals: map<int, string> := map[
    1 := "小二度 (m2)",
    2 := "大二度 (M2)",
    3 := "小三度 (m3)",
    4 := "大三度 (M3)",
    5 := "纯四度 (P4)",
    6 := "增四/减五 (TT)",
    7 := "纯五度 (P5)",
    8 := "小六度 (m6)",
    9 := "大六度 (M6)",
    10 := "小七度 (m7)",
    11 := "大七度 (M7)",
    12 := "纯八度 (P8)"
  ]

  /** The semitone counts the catalog knows: 1 through 12. */
  predicate InCatalog(semitones: int) {
    1 <= semitones <= 12
  }

  /** The catalog has exactly the keys 1..12. */
  lemma CatalogKeys()
    ensures forall s :: s in Intervals <==> InCatalog(s)
  {
  }

  /**
   * The display name of an interval of the catalog. No other interval has
   * the same name, so the name reported as the correct answer identifies it.
   */
  function IntervalName(semitones: int): (name: string)
    requires InCatalog(semitones)
    ensures semitones in Intervals && name == Intervals[semitones]
    ensures forall other :: other in Intervals && other != semitones ==> name != Intervals[other]
  {
    CatalogKeys();
    NamesDistinct();
    Intervals[semitones]
  }

  /** The twelve display names are pairwise different. */
  lemma NamesDistinct()
    ensures forall a, b :: InCatalog(a) && InCatalog(b) && a != b ==> Intervals[a] != Intervals[b]
  {
    CatalogKeys();
  }

  /**
   * One checkbox flag per catalog interval: the checkbox dictionary is built
   * by walking the catalog, so its keys are exactly the catalog's.
   */
  ghost predicate WellFormedFlags(flags: map<int, bool>) {
    forall s :: s in flags <==> InCatalog(s)
  }

  /** No element repeats and the elements come in catalog (ascending) order. */
  ghost predicate StrictlyIncreasing(xs: seq<int>) {
    forall i, j :: 0 <= i < j < |xs| ==> xs[i] < xs[j]
  }

  /** The checked semitones from `from` up to 12, in catalog order. */
  function CheckedFrom(flags: map<int, bool>, from: int): (active: seq<int>)
    requires WellFormedFlags(flags)
    requires 1 <= from <= 13
    ensures forall s :: s in active <==> from <= s <= 12 && flags[s]
    ensures StrictlyIncreasing(active)
    decreases 13 - from
  {
    if from == 13 then []
    else
      var rest := CheckedFrom(flags, from + 1);
      if flags[from] then
        assert forall j :: 0 <= j < |rest| ==> from < rest[j] by {
          forall j | 0 <= j < |rest| ensures from < rest[j] { assert rest[j] in rest; }
        }
        [from] + rest
      else rest
  }

  /**
   * The intervals whose checkbox is ticked, in catalog order: the list a
   * new question draws its interval from.
   */
  function ActiveIntervals(flags: map<int, bool>): (active: seq<int>)
    requires WellFormedFlags(flags)
    ensures forall s :: s in active <==> InCatalog(s) && flags[s]
    ensures StrictlyIncreasing(active)
    ensures |active| <= 12
  {
    var active := CheckedFrom(flags, 1);
    StrictlyIncreasingBound(active, 1, 12);
    active
  }

  /** A strictly increasing list drawn from lo..hi has at most hi - lo + 1 elements. */
  lemma {:induction false} StrictlyIncreasingBound(xs: seq<int>, lo: int, hi: int)
    requires StrictlyIncreasing(xs)
    requires forall x :: x in xs ==> lo <= x <= hi
    ensures |xs| <= if hi < lo then 0 else hi - lo + 1
  {
    if xs != [] {
      assert xs[0] in xs;
      forall x | x in xs[1..] ensures lo + 1 <= x <= hi {
        var k :| 0 <= k < |xs[1..]| && xs[1..][k] == x;
        assert xs[k + 1] in xs && xs[0] < xs[k + 1];
      }
      StrictlyIncreasingBound(xs[1..], lo + 1, hi);
    }
  }

  /** With every box from `from` on ticked, every semitone from `from` to 12 is active, in order. */
  lemma {:induction false} AllCheckedFrom(flags: map<int, bool>, from: int)
    requires WellFormedFlags(flags)
    requires forall s :: s in flags ==> flags[s]
    requires 1 <= from <= 13
    ensures |CheckedFrom(flags, from)| == 13 - from
    ensures forall i :: 0 <= i < 13 - from ==> CheckedFrom(flags, from)[i] == from + i
    decreases 13 - from
  {
    if from < 13 {
      AllCheckedFrom(flags, from + 1);
      assert from in flags;
    }
  }

  /** With every box ticked (the start-up state) all twelve intervals are active. */
  lemma AllCheckedIsWholeCatalog(flags: map<int, bool>)
    requires WellFormedFlags(flags)
    requires forall s :: s in flags ==> flags[s]
    ensures |ActiveIntervals(flags)| == 12
    ensures forall i :: 0 <= i < 12 ==> ActiveIntervals(flags)[i] == i + 1
  {
    AllCheckedFrom(flags, 1);
  }
}
