/** The status classifier of the BMI screen: eight categories separated by seven
    ascending cut-offs, each compared with a strict less-than, first match wins. */
module Classification {

  datatype Status =
    | SevereThinness
    | ModerateThinness
    | MildThinness
    | Normal
    | Overweight
    | ObeseClassI
    | ObeseClassII
    | ObeseClassIII

  /** The text the screen shows for a status. */
  function Label(s: Status): string {
    match s
    case SevereThinness => "Severe Thinness"
    case ModerateThinness => "Moderate Thinness"
    case MildThinness => "Mild Thinness"
    case Normal => "Normal"
    case Overweight => "Overweight"
    case ObeseClassI => "Obese Class I"
    case ObeseClassII => "Obese Class II"
    case ObeseClassIII => "Obese Class III"
  }

  /** The cut-offs between consecutive categories, in ascending order. */
  const Thresholds: seq<real> := [16.0, 17.0, 18.5, 25.0, 30.0, 35.0, 40.0]

  /** Position of a category, from thinnest (0) to heaviest (7). */
  function Rank(s: Status): (k: nat)
    ensures k <= |Thresholds|
  {
    match s
    case SevereThinness => 0
    case ModerateThinness => 1
    case MildThinness => 2
    case Normal => 3
    case Overweight => 4
    case ObeseClassI => 5
    case ObeseClassII => 6
    case ObeseClassIII => 7
  }

  /** The band of category s: at least the cut-off below it (none for the first)
      and strictly below the cut-off above it (none for the last). */
  ghost predicate InBand(s: Status, v: real) {
    var k := Rank(s);
    (k == 0 || Thresholds[k - 1] <= v) && (k == |Thresholds| || v < Thresholds[k])
  }

  /** Number of cut-offs in ts that v has reached. */
  ghost function Reached(ts: seq<real>, v: real): nat {
    if ts == [] then 0 else (if ts[0] <= v then 1 else 0) + Reached(ts[1..], v)
  }

  /** getStatus: the chain of strict comparisons, in ascending order. */
  function GetStatus(val: real): (s: Status)
    ensures InBand(s, val)
  {
    if val < 16.0 then SevereThinness
    else if val < 17.0 then ModerateThinness
    else if val < 18.5 then MildThinness
    else if val < 25.0 then Normal
    else if val < 30.0 then Overweight
    else if val < 35.0 then ObeseClassI
    else if val < 40.0 then ObeseClassII
    else ObeseClassIII
  }

  /** Totality and exclusiveness: every value lies in the band of exactly one
      category, and that category is the one getStatus returns. */
  lemma BandUnique(s: Status, v: real)
    ensures InBand(s, v) <==> s == GetStatus(v)
  {
  }

  /** The category's rank is the number of cut-offs the value has reached. */
  lemma {:induction false} RankCountsThresholds(v: real)
    ensures Rank(GetStatus(v)) == Reached(Thresholds, v)
  {
    var t7: seq<real> := [40.0];
    var t6 := [35.0] + t7;
    var t5 := [30.0] + t6;
    var t4 := [25.0] + t5;
    var t3 := [18.5] + t4;
    var t2 := [17.0] + t3;
    var t1 := [16.0] + t2;
    assert t1 == Thresholds;
    assert t7[1..] == [];
    assert Reached(t7, v) == (if 40.0 <= v then 1 else 0);
    assert t6[1..] == t7;
    assert Reached(t6, v) == (if 35.0 <= v then 1 else 0) + Reached(t7, v);
    assert t5[1..] == t6;
    assert Reached(t5, v) == (if 30.0 <= v then 1 else 0) + Reached(t6, v);
    assert t4[1..] == t5;
    assert Reached(t4, v) == (if 25.0 <= v then 1 else 0) + Reached(t5, v);
    assert t3[1..] == t4;
    assert Reached(t3, v) == (if 18.5 <= v then 1 else 0) + Reached(t4, v);
    assert t2[1..] == t3;
    assert Reached(t2, v) == (if 17.0 <= v then 1 else 0) + Reached(t3, v);
    assert t1[1..] == t2;
    assert Reached(t1, v) == (if 16.0 <= v then 1 else 0) + Reached(t2, v);
  }

  /** A larger value never gets a thinner category. */
  lemma StatusMonotone(a: real, b: real)
    requires a <= b
    ensures Rank(GetStatus(a)) <= Rank(GetStatus(b))
  {
  }

  /** Each cut-off already belongs to the category above it. */
  lemma BoundaryValues()
    ensures GetStatus(16.0) == ModerateThinness
    ensures GetStatus(17.0) == MildThinness
    ensures GetStatus(18.5) == Normal
    ensures GetStatus(25.0) == Overweight
    ensures GetStatus(30.0) == ObeseClassI
    ensures GetStatus(35.0) == ObeseClassII
    ensures GetStatus(40.0) == ObeseClassIII
  {
  }

  /** Distinct categories are shown with distinct texts. */
  lemma LabelsDistinct(s: Status, t: Status)
    requires s != t
    ensures Label(s) != Label(t)
  {
  }
}
