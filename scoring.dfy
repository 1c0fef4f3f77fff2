/** Scoring helpers: combo milestones and their pulse tiers, clicks per
    second, the progress bars' percentages and colours, the share text's
    levels, the time setting's clamp and the time-over test. */
module Scoring {
  import opened Wrappers

  /** The three game modes (`MODE_NORMAL = 1, MODE_ENDLESS = 2, MODE_PRACTICE = 3`). */
  datatype Mode = Normal | Endless | Practice

  /** The combo milestones, in increasing order. */
  const Milestones: seq<int> := [50, 100, 150, 200, 250, 300, 350, 400, 450, 500]

  /** The first milestone at position k or later that the score has reached
      and the last celebrated milestone has not. */
  function FirstMilestoneFrom(score: int, last: int, k: nat): Option<int>
    requires k <= |Milestones|
    decreases |Milestones| - k
  {
    if k == |Milestones| then None
    else if score >= Milestones[k] && last < Milestones[k] then Some(Milestones[k])
    else FirstMilestoneFrom(score, last, k + 1)
  }

  /** The milestone checkComboMilestone celebrates, if any: at most one. */
  function NextMilestone(score: int, last: int): (r: Option<int>)
    ensures r.Some? ==> r.value in Milestones && last < r.value <= score
    ensures r.None? ==> forall m :: m in Milestones ==> !(last < m <= score)
  {
    FirstMilestoneFromSpec(score, last, 0);
    FirstMilestoneFrom(score, last, 0)
  }

  lemma {:induction false} FirstMilestoneFromSpec(score: int, last: int, k: nat)
    requires k <= |Milestones|
    ensures var r := FirstMilestoneFrom(score, last, k);
      && (r.Some? ==> exists i :: k <= i < |Milestones| && Milestones[i] == r.value && last < r.value <= score
                       && forall j :: k <= j < i ==> !(last < Milestones[j] <= score))
      && (r.None? ==> forall j :: k <= j < |Milestones| ==> !(last < Milestones[j] <= score))
    decreases |Milestones| - k
  {
    if k < |Milestones| {
      var m := Milestones[k];
      if score >= m && last < m {
        assert FirstMilestoneFrom(score, last, k) == Some(m);
      } else {
        FirstMilestoneFromSpec(score, last, k + 1);
        var r := FirstMilestoneFrom(score, last, k + 1);
        assert FirstMilestoneFrom(score, last, k) == r;
        if r.Some? {
          var i :| k + 1 <= i < |Milestones| && Milestones[i] == r.value && last < r.value <= score
                   && forall j :: k + 1 <= j < i ==> !(last < Milestones[j] <= score);
          assert forall j :: k <= j < i ==> !(last < Milestones[j] <= score);
        }
      }
    }
  }

  /** checkComboMilestone celebrates the smallest milestone above the last
      celebrated one that the score has reached, and nothing when there is
      none. */
  lemma NextMilestoneIsSmallestReached(score: int, last: int)
    ensures var r := NextMilestone(score, last);
      && (r.Some? ==> r.value in Milestones && last < r.value <= score
                       && forall m :: m in Milestones && last < m <= score ==> r.value <= m)
      && (r.None? ==> forall m :: m in Milestones ==> !(last < m <= score))
  {
    FirstMilestoneFromSpec(score, last, 0);
  }

  /** The largest milestone a score has reached, 0 below the first. */
  function MilestoneReached(score: int): int {
    if score < 50 then 0 else if score >= 500 then 500 else (score / 50) * 50
  }

  /** MilestoneReached is the largest milestone not above the score. */
  lemma MilestoneReachedIsLargest(score: int)
    ensures var m := MilestoneReached(score);
      && (m == 0 || m in Milestones)
      && (m <= score || score < 50)
      && forall k :: k in Milestones && k <= score ==> k <= m
  {
  }

  /** Scores grow by one per hit and each hit is checked, so the last
      celebrated milestone is always the largest one reached: one more hit
      celebrates a milestone exactly when it reaches a new one. */
  lemma MilestoneTracksScore(score: int)
    requires score >= 0
    ensures var r := NextMilestone(score + 1, MilestoneReached(score));
      && (r.Some? <==> MilestoneReached(score + 1) != MilestoneReached(score))
      && (if r.Some? then r.value else MilestoneReached(score)) == MilestoneReached(score + 1)
  {
    NextMilestoneIsSmallestReached(score + 1, MilestoneReached(score));
    MilestoneReachedIsLargest(score);
    MilestoneReachedIsLargest(score + 1);
    var m := MilestoneReached(score + 1);
    if m != MilestoneReached(score) {
      assert m == score + 1;
      assert m in Milestones;
    }
  }

  /** The tiers of the golden pulse's colour. */
  const PulseTiers: seq<int> := [50, 100, 150, 200]

  /** The pulse's colour tier for a combo count: the largest tier it has
      reached, the lowest one below 100. */
  function PulseTier(comboCount: int): (t: int)
    ensures t in PulseTiers
    ensures comboCount < 100 ==> t == 50
    ensures comboCount >= 50 ==> t <= comboCount
    ensures forall k :: k in PulseTiers && k <= comboCount ==> k <= t
  {
    if comboCount >= 200 then 200
    else if comboCount >= 150 then 150
    else if comboCount >= 100 then 100
    else 50
  }

  /** The milestones 50, 100 and 150 get their own tier; 200 and above share
      the top one. */
  lemma MilestoneTiers()
    ensures forall m :: m in Milestones ==> PulseTier(m) == (if m < 200 then m else 200)
  {
  }

  /** getCPS: hits per second since the first hit, forced to 0 before two
      timer ticks and when the division has no finite value (no time
      elapsed). */
  function Cps(score: int, elapsedMs: int, ticks: int): (c: real)
    requires score >= 0
    ensures ticks < 2 || elapsedMs == 0 ==> c == 0.0
    ensures ticks >= 2 && elapsedMs != 0 ==> c * elapsedMs as real == 1000.0 * score as real
    ensures elapsedMs > 0 ==> c >= 0.0
  {
    if ticks < 2 || elapsedMs == 0 then 0.0
    else score as real / (elapsedMs as real / 1000.0)
  }

  function Min(a: real, b: real): real { if a <= b then a else b }
  function Max(a: real, b: real): real { if a >= b then a else b }

  /** createTimeProgressBar's percentage: time left over the time budget,
      clamped to 0..100. */
  function TimePercent(current: real, total: real): (p: real)
    requires total > 0.0
    ensures 0.0 <= p <= 100.0
    ensures 0.0 <= current <= total ==> p * total == current * 100.0
    ensures current <= 0.0 ==> p == 0.0
    ensures current >= total ==> p == 100.0
  {
    Max(0.0, Min(100.0, (current / total) * 100.0))
  }

  /** The largest value the clicks-per-second bar shows full. */
  const MaxCps: real := 11.0

  /** createCPSProgressBar's percentage: capped at 100, not clamped below. */
  function CpsPercent(cps: real): (p: real)
    ensures p <= 100.0
    ensures cps <= MaxCps ==> p * MaxCps == cps * 100.0
    ensures cps >= MaxCps ==> p == 100.0
  {
    Min(100.0, (cps / MaxCps) * 100.0)
  }

  datatype Color = Red | Yellow | Green

  /** getProgressColorClass. */
  function ColorClass(percentage: real): (c: Color)
    ensures c == Red <==> percentage <= 30.0
    ensures c == Green <==> percentage > 60.0
  {
    if percentage <= 30.0 then Red
    else if percentage <= 60.0 then Yellow
    else Green
  }

  function ColorRank(c: Color): int {
    match c
    case Red => 0
    case Yellow => 1
    case Green => 2
  }

  /** A fuller bar is never a worse colour. */
  lemma ColorMonotone(p1: real, p2: real)
    requires p1 <= p2
    ensures ColorRank(ColorClass(p1)) <= ColorRank(ColorClass(p2))
  {
  }

  /** The time bar is red once 30% or less of the budget is left, and green
      while more than 60% is left. */
  lemma TimeBarColor(current: real, total: real)
    requires total > 0.0
    ensures ColorClass(TimePercent(current, total)) == Red <==> current * 10.0 <= total * 3.0
    ensures ColorClass(TimePercent(current, total)) == Green <==> current * 10.0 > total * 6.0
  {
    var p := TimePercent(current, total);
    if 0.0 <= current <= total {
      assert (p - 30.0) * total == 10.0 * (current * 10.0 - total * 3.0);
      assert (p - 60.0) * total == 10.0 * (current * 10.0 - total * 6.0);
      ScaleKeepsSign(p - 30.0, total);
      ScaleKeepsSign(p - 60.0, total);
    }
  }

  lemma ScaleKeepsSign(a: real, t: real)
    requires t > 0.0
    ensures a <= 0.0 <==> a * t <= 0.0
  {
    if a > 0.0 {
      assert a * t > 0.0;
    }
  }

  /** The clicks-per-second bar is red up to 3.3 and green above 6.6. */
  lemma CpsBarColor(cps: real)
    ensures ColorClass(CpsPercent(cps)) == Red <==> cps <= 3.3
    ensures ColorClass(CpsPercent(cps)) == Green <==> cps > 6.6
  {
  }

  /** The share text's level for a clicks-per-second value. */
  function Level(cps: real): (n: int)
    ensures 1 <= n <= 5
    ensures n == 1 <==> cps <= 5.0
    ensures n <= 2 <==> cps <= 8.0
    ensures n <= 3 <==> cps <= 10.0
    ensures n <= 4 <==> cps <= 15.0
  {
    if cps <= 5.0 then 1
    else if cps <= 8.0 then 2
    else if cps <= 10.0 then 3
    else if cps <= 15.0 then 4
    else 5
  }

  /** A faster player never gets a lower level; the top level needs more
      than 15 clicks per second and the bottom one at most 5. */
  lemma LevelMonotone(c1: real, c2: real)
    requires c1 <= c2
    ensures Level(c1) <= Level(c2)
    ensures Level(c2) == 5 <==> c2 > 15.0
    ensures Level(c1) == 1 <==> c1 <= 5.0
  {
  }

  /** The time slider's clamp of a saved time to 10..60 seconds. */
  function ClampTime(v: int): (t: int)
    ensures 10 <= t <= 60
    ensures 10 <= v <= 60 ==> t == v
    ensures v < 10 ==> t == 10
    ensures v > 60 ==> t == 60
  {
    if v < 10 then 10 else if v > 60 then 60 else v
  }

  /** legalDeviationTime: a Normal game's result stands when it ended less
      than three seconds after its time budget. */
  predicate LegalDeviation(deviationMs: int, settingSeconds: int) {
    deviationMs < (settingSeconds + 3) * 1000
  }

  /** Ending earlier or with a longer budget never makes a legal result
      illegal, and the last legal deviation is 2999 ms past the budget. */
  lemma LegalDeviationWindow(d1: int, d2: int, s1: int, s2: int)
    requires d1 <= d2 && s1 <= s2
    ensures LegalDeviation(d2, s1) ==> LegalDeviation(d1, s2)
    ensures LegalDeviation(s1 * 1000 + 2999, s1) && !LegalDeviation(s1 * 1000 + 3000, s1)
  {
  }

  /** The share text: "Time Over" for an illegal Normal game, otherwise the
      level of the clicks per second. */
  datatype Share = TimeOver | ShareLevel(level: int)

  function ShareText(mode: Mode, deviationMs: int, settingSeconds: int, cps: real): (s: Share)
    ensures s == TimeOver <==> mode == Normal && deviationMs >= (settingSeconds + 3) * 1000
    ensures s.ShareLevel? ==> s.level == Level(cps)
  {
    if mode == Normal && !LegalDeviation(deviationMs, settingSeconds) then TimeOver
    else ShareLevel(Level(cps))
  }
}
