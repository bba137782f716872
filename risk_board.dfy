/** The scoring side of the risk board page: its own copy of the risk score,
    the level and colour a score is shown with, and the active, critical and
    mitigated lists. */
module RiskBoard {

  import opened Common
  import RiskModel

  /** The fields of a risk the board reads. */
  datatype BoardRisk = BoardRisk(title: string, probability: string, impact: string, status: string)

  datatype Level = Low | Medium | High | Critical

  datatype Colour = Secondary | Warning | Destructive

  /** `getRiskScore`: the page's own copy of the score. */
  function GetRiskScore(probability: string, impact: string): nat {
    var probScore := if probability == "high" then 3 else if probability == "medium" then 2 else 1;
    var impactScore := if impact == "high" then 3 else if impact == "medium" then 2 else 1;
    probScore * impactScore
  }

  /** The page and the server compute the same score for every pair of levels. */
  lemma ScoresAgree(probability: string, impact: string)
    ensures GetRiskScore(probability, impact) == RiskModel.RiskScore(Some(probability), Some(impact))
  {
  }

  function LevelOf(score: int): Level {
    if score >= 6 then Critical else if score >= 4 then High else if score >= 2 then Medium else Low
  }

  function ColourOf(score: int): Colour {
    if score >= 6 then Destructive else if score >= 4 then Warning else Secondary
  }

  /** Each level covers one band of scores, and the bands cover every score. */
  lemma LevelBands(score: int)
    ensures LevelOf(score) == Critical <==> score >= 6
    ensures LevelOf(score) == High <==> 4 <= score < 6
    ensures LevelOf(score) == Medium <==> 2 <= score < 4
    ensures LevelOf(score) == Low <==> score < 2
  {
  }

  /** The colour follows the level: critical is destructive, high is warning,
      medium and low share secondary. */
  lemma ColourFollowsLevel(score: int)
    ensures ColourOf(score) == Destructive <==> LevelOf(score) == Critical
    ensures ColourOf(score) == Warning <==> LevelOf(score) == High
    ensures ColourOf(score) == Secondary <==> LevelOf(score) == Medium || LevelOf(score) == Low
  {
  }

  /** On real scores: a risk is critical exactly when one level is high and
      the other at least medium, and low exactly when neither is medium or high. */
  lemma LevelOfLevels(probability: string, impact: string)
    ensures LevelOf(GetRiskScore(probability, impact)) == Critical <==>
      (probability == "high" && impact in {"high", "medium"}) || (impact == "high" && probability in {"high", "medium"})
    ensures LevelOf(GetRiskScore(probability, impact)) == Low <==>
      probability !in {"high", "medium"} && impact !in {"high", "medium"}
  {
  }

  /** `xs.filter(keep)`: the elements that pass, in their order. */
  function Filter<T(!new)>(xs: seq<T>, keep: T -> bool): (r: seq<T>)
    ensures |r| <= |xs|
    ensures forall x :: x in r <==> x in xs && keep(x)
    ensures forall i :: 0 <= i < |r| ==> keep(r[i])
    ensures multiset(r) <= multiset(xs)
    ensures forall x :: multiset(r)[x] == if keep(x) then multiset(xs)[x] else 0
  {
    if xs == [] then []
    else
      var rest := Filter(xs[1..], keep);
      var r := if keep(xs[0]) then [xs[0]] + rest else rest;
      FilterStep(xs, rest, r, keep);
      r
  }

  /** One step of `Filter`: putting the head back in front when it passes
      keeps every property of the filtered tail. */
  lemma FilterStep<T(!new)>(xs: seq<T>, rest: seq<T>, r: seq<T>, keep: T -> bool)
    requires xs != []
    requires |rest| <= |xs| - 1
    requires forall x :: x in rest <==> x in xs[1..] && keep(x)
    requires forall i :: 0 <= i < |rest| ==> keep(rest[i])
    requires forall x :: multiset(rest)[x] == if keep(x) then multiset(xs[1..])[x] else 0
    requires r == if keep(xs[0]) then [xs[0]] + rest else rest
    ensures |r| <= |xs|
    ensures forall x :: x in r <==> x in xs && keep(x)
    ensures forall i :: 0 <= i < |r| ==> keep(r[i])
    ensures multiset(r) <= multiset(xs)
    ensures forall x :: multiset(r)[x] == if keep(x) then multiset(xs)[x] else 0
  {
    assert xs == [xs[0]] + xs[1..];
    assert multiset(xs) == multiset{xs[0]} + multiset(xs[1..]);
  }

  /** Filtering keeps the order: the kept elements of a front part come before
      those of the back part. */
  lemma {:induction false} FilterAppend<T(!new)>(xs: seq<T>, ys: seq<T>, keep: T -> bool)
    ensures Filter(xs + ys, keep) == Filter(xs, keep) + Filter(ys, keep)
  {
    if xs == [] {
      assert xs + ys == ys;
    } else {
      assert (xs + ys)[0] == xs[0] && (xs + ys)[1..] == xs[1..] + ys;
      FilterAppend(xs[1..], ys, keep);
    }
  }

  /** A single element is kept exactly when it passes. */
  lemma FilterSingle<T(!new)>(x: T, keep: T -> bool)
    ensures Filter([x], keep) == if keep(x) then [x] else []
  {
    assert [x][1..] == [];
  }

  function ActiveRisks(rs: seq<BoardRisk>): (r: seq<BoardRisk>)
    ensures forall x :: x in r <==> x in rs && x.status != "closed"
    ensures forall x :: multiset(r)[x] == if x.status != "closed" then multiset(rs)[x] else 0
  {
    Filter(rs, (x: BoardRisk) => x.status != "closed")
  }

  function CriticalRisks(rs: seq<BoardRisk>): (r: seq<BoardRisk>)
    ensures forall x :: x in r <==> x in rs && GetRiskScore(x.probability, x.impact) >= 6
    ensures forall x :: multiset(r)[x] == if GetRiskScore(x.probability, x.impact) >= 6 then multiset(rs)[x] else 0
  {
    Filter(rs, (x: BoardRisk) => GetRiskScore(x.probability, x.impact) >= 6)
  }

  function MitigatedRisks(rs: seq<BoardRisk>): (r: seq<BoardRisk>)
    ensures forall x :: x in r <==> x in rs && x.status == "mitigated"
    ensures forall x :: multiset(r)[x] == if x.status == "mitigated" then multiset(rs)[x] else 0
  {
    Filter(rs, (x: BoardRisk) => x.status == "mitigated")
  }

  /** A mitigated risk is still counted as active, and a critical risk is
      shown with the critical level and the destructive colour. */
  lemma ListsAgree(rs: seq<BoardRisk>)
    ensures forall x :: x in MitigatedRisks(rs) ==> x in ActiveRisks(rs)
    ensures forall x :: x in CriticalRisks(rs) ==>
      var s := GetRiskScore(x.probability, x.impact); LevelOf(s) == Critical && ColourOf(s) == Destructive
  {
  }
}
