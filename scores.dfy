/** The attribute scorer: `clamp` and the five score formulas of `recalculate`
    (src/stores/useProgressStore.ts). `Math.round` of a non-negative rational
    n/d is rounding half up, computed exactly on integers. */
module Scores {
  import opened Types
  import opened Seqs
  import MasteryKeys

  /** `clamp(value)` with its default bounds 0 and 100. */
  function Clamp(value: int): (r: int)
    ensures 0 <= r <= 100
    ensures 0 <= value <= 100 ==> r == value
    ensures value < 0 ==> r == 0
    ensures value > 100 ==> r == 100
  {
    var upper := if value < 100 then value else 100;
    if 0 < upper then upper else 0
  }

  /** `Math.round(n / d)`: the nearest integer, halves rounded up. */
  function RoundHalfUp(n: int, d: int): (r: int)
    requires d > 0
    ensures 2 * d * r - d <= 2 * n < 2 * d * r + d
  {
    (2 * n + d) / (2 * d)
  }

  /** Multiplying by a non-negative factor keeps the order. */
  lemma {:induction false} MulMonotone(d: nat, a: int, b: int)
    ensures a <= b ==> d * a <= d * b
  {
    if d > 0 {
      MulMonotone(d - 1, a, b);
      assert d * a == (d - 1) * a + a && d * b == (d - 1) * b + b;
    }
  }

  /** Division by a positive divisor keeps the order. */
  lemma DivMonotone(x: int, y: int, z: int)
    requires z > 0 && x <= y
    ensures x / z <= y / z
  {
    var q1, q2 := x / z, y / z;
    MulMonotone(z, q2 + 1, q1);
    assert z * (q2 + 1) == z * q2 + z;
  }

  /** The rounding of a whole number is that number. */
  lemma RoundWhole(k: int, d: int)
    requires d > 0
    ensures RoundHalfUp(k * d, d) == k
  {
    var q := (2 * (k * d) + d) / (2 * d);
    assert 2 * (k * d) + d == (2 * d) * k + d;
    MulMonotone(2 * d, q + 1, k);
    MulMonotone(2 * d, k + 1, q);
    assert (2 * d) * (q + 1) == (2 * d) * q + 2 * d;
    assert (2 * d) * (k + 1) == (2 * d) * k + 2 * d;
  }

  /** Rounding is monotone in the numerator. */
  lemma RoundMonotone(n1: int, n2: int, d: int)
    requires d > 0 && n1 <= n2
    ensures RoundHalfUp(n1, d) <= RoundHalfUp(n2, d)
  {
    DivMonotone(2 * n1 + d, 2 * n2 + d, 2 * d);
  }

  // ----- Focus -----

  /** `sessions.filter((s) => s.type === 'deliberate')` */
  function DeliberateSessions(sessions: seq<PracticeSession>): seq<PracticeSession> {
    Filter(sessions, (s: PracticeSession) => s.sessionType == Deliberate)
  }

  /** `sessions.reduce((sum, s) => sum + s.quality, 0)` */
  function QualitySum(sessions: seq<PracticeSession>): int {
    if sessions == [] then 0 else sessions[0].quality + QualitySum(sessions[1..])
  }

  /** Every quality is between 1 and 5, so the sum lies between |sessions| and 5 |sessions|. */
  lemma {:induction false} QualitySumBounds(sessions: seq<PracticeSession>)
    ensures |sessions| <= QualitySum(sessions) <= 5 * |sessions|
  {
    if sessions != [] {
      QualitySumBounds(sessions[1..]);
    }
  }

  /** Focus from the deliberate sessions' quality sum and count:
      `clamp(round((avg / 5) * 100))`, with avg = 0 when there are none. */
  function FocusScore(qualitySum: int, count: nat): (r: int)
    ensures 0 <= r <= 100
    ensures count == 0 ==> r == 0
  {
    Clamp(if count > 0 then RoundHalfUp(100 * qualitySum, 5 * count) else 0)
  }

  function Focus(sessions: seq<PracticeSession>): (r: int)
    ensures 0 <= r <= 100
    ensures DeliberateSessions(sessions) == [] ==> r == 0
  {
    var deliberate := DeliberateSessions(sessions);
    FocusScore(QualitySum(deliberate), |deliberate|)
  }

  /** Focus is 0 without deliberate sessions, and otherwise at least 20 (an
      average quality of 1) and at most 100 (an average quality of 5). */
  lemma FocusRange(sessions: seq<PracticeSession>)
    ensures DeliberateSessions(sessions) == [] ==> Focus(sessions) == 0
    ensures DeliberateSessions(sessions) != [] ==> 20 <= Focus(sessions) <= 100
  {
    var deliberate := DeliberateSessions(sessions);
    var c, s := |deliberate|, QualitySum(deliberate);
    if c > 0 {
      QualitySumBounds(deliberate);
      RoundMonotone(100 * c, 100 * s, 5 * c);
      RoundWhole(20, 5 * c);
      assert 100 * c == 20 * (5 * c);
    }
  }

  /** Deliberate qualities 3 and 5 give focus 80; a single 5 gives 100. */
  lemma FocusExamples()
    ensures FocusScore(3 + 5, 2) == 80
    ensures FocusScore(5, 1) == 100
    ensures FocusScore(0, 0) == 0
  {
  }

  // ----- Discipline -----

  /** `clamp(round((current / 30) * 100))` */
  function Discipline(currentStreak: int): (r: int)
    ensures 0 <= r <= 100
  {
    Clamp(RoundHalfUp(100 * currentStreak, 30))
  }

  /** Discipline is 0 without a streak, 50 at 15 days and 100 from 30 days on,
      and never falls as the streak grows. */
  lemma DisciplineValues(streak: int, longer: int)
    requires 0 <= streak <= longer
    ensures Discipline(0) == 0 && Discipline(15) == 50
    ensures streak >= 30 ==> Discipline(streak) == 100
    ensures Discipline(streak) <= Discipline(longer)
  {
    RoundMonotone(100 * streak, 100 * longer, 30);
    if streak >= 30 {
      RoundMonotone(100 * 30, 100 * streak, 30);
    }
  }

  // ----- Creativity -----

  /** `sessions.filter((s) => s.type === 'observational').length` */
  function ObservationalCount(sessions: seq<PracticeSession>): nat {
    |Filter(sessions, (s: PracticeSession) => s.sessionType == Observational)|
  }

  /** `clamp(round((observational / max(total, 1)) * 200))` */
  function CreativityScore(observational: nat, total: nat): (r: int)
    ensures 0 <= r <= 100
  {
    Clamp(RoundHalfUp(200 * observational, if total > 1 then total else 1))
  }

  function Creativity(sessions: seq<PracticeSession>): (r: int)
    ensures 0 <= r <= 100
    ensures sessions == [] ==> r == 0
  {
    CreativityScore(ObservationalCount(sessions), |sessions|)
  }

  /** Creativity is 0 without sessions, 20 for one observational session in
      ten, and 100 once at least half the sessions are observational. */
  lemma CreativityValues(observational: nat, total: nat)
    requires observational <= total
    ensures CreativityScore(0, 0) == 0
    ensures CreativityScore(1, 10) == 20
    ensures 0 < total <= 2 * observational ==> CreativityScore(observational, total) == 100
  {
    if 0 < total <= 2 * observational {
      RoundMonotone(100 * total, 200 * observational, total);
      RoundWhole(100, total);
    }
  }

  // ----- Intuition -----

  /** 0 below the creative threshold (500 hours); then
      `clamp(round(((total - 500h) / 4500h) * 100))`. */
  function Intuition(totalMinutes: int): (r: int)
    ensures 0 <= r <= 100
    ensures totalMinutes < MasteryKeys.CREATIVE_THRESHOLD ==> r == 0
  {
    if totalMinutes >= 500 * 60 then Clamp(RoundHalfUp(100 * (totalMinutes - 500 * 60), 4500 * 60))
    else 0
  }

  /** Intuition reaches 100 at the master threshold (5000 hours) and never
      falls as the minutes grow. */
  lemma IntuitionValues(m1: int, m2: int)
    requires m1 <= m2
    ensures m1 >= MasteryKeys.MASTER_THRESHOLD ==> Intuition(m1) == 100
    ensures Intuition(m1) <= Intuition(m2)
  {
    if m1 >= 500 * 60 {
      RoundMonotone(100 * (m1 - 500 * 60), 100 * (m2 - 500 * 60), 4500 * 60);
    }
    if m1 >= MasteryKeys.MASTER_THRESHOLD {
      RoundMonotone(100 * (4500 * 60), 100 * (m1 - 500 * 60), 4500 * 60);
      RoundWhole(100, 4500 * 60);
    }
  }

  // ----- Social intelligence -----

  /** `clamp(round(mentorCount * 10 + maxLevel * 10))`; the rounded value is already whole. */
  function SocialIntelligence(mentorCount: int, maxLevel: int): (r: int)
    ensures 0 <= r <= 100
    ensures mentorCount >= 0 && maxLevel >= 0 ==>
      r == if mentorCount * 10 + maxLevel * 10 < 100 then mentorCount * 10 + maxLevel * 10 else 100
  {
    Clamp(mentorCount * 10 + maxLevel * 10)
  }
}
