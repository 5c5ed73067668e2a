/** The progress store (src/stores/useProgressStore.ts): the in-memory
    mastery progress of the active life's task and the three operations that
    rewrite it — `recalculate`, `addXp` and `checkUnlocks` — together with the
    mastery-key unlock evaluator that `checkUnlocks` runs. */
module Progress {
  import opened Types
  import opened Seqs
  import opened Db
  import opened MasteryKeys
  import Streaks
  import Scores

  // ----- The unlock evaluator -----

  /** A key not unlocked yet whose threshold the total has reached. */
  function Unlockable(unlocked: seq<string>, totalMinutes: int): MasteryKey -> bool {
    (k: MasteryKey) => k.id !in unlocked && totalMinutes >= k.unlockedAtMinutes
  }

  /** The keys of a catalogue that a total newly unlocks, in catalogue order. */
  function NewKeys(keys: seq<MasteryKey>, unlocked: seq<string>, totalMinutes: int): seq<MasteryKey> {
    Filter(keys, Unlockable(unlocked, totalMinutes))
  }

  /** The ids `checkUnlocks` must report. */
  function NewlyUnlocked(keys: seq<MasteryKey>, unlocked: seq<string>, totalMinutes: int): seq<string> {
    KeyIds(NewKeys(keys, unlocked, totalMinutes))
  }

  /** The unlocked list after an evaluation: the old ids, then the new ones. */
  function AfterUnlock(keys: seq<MasteryKey>, unlocked: seq<string>, totalMinutes: int): seq<string> {
    Dedup(unlocked) + NewlyUnlocked(keys, unlocked, totalMinutes)
  }

  /** The newly unlocked ids are exactly the ids of keys whose threshold
      the total has reached and that are not yet unlocked. */
  lemma NewlyUnlockedExact(keys: seq<MasteryKey>, unlocked: seq<string>, totalMinutes: int, x: string)
    ensures x in NewlyUnlocked(keys, unlocked, totalMinutes) <==>
      exists k :: k in keys && k.id == x && x !in unlocked && k.unlockedAtMinutes <= totalMinutes
  {
    var chosen := NewKeys(keys, unlocked, totalMinutes);
    var r := NewlyUnlocked(keys, unlocked, totalMinutes);
    if x in r {
      var i :| 0 <= i < |r| && r[i] == x;
      assert chosen[i] in keys && Unlockable(unlocked, totalMinutes)(chosen[i]);
    }
    if exists k :: k in keys && k.id == x && x !in unlocked && k.unlockedAtMinutes <= totalMinutes {
      var k :| k in keys && k.id == x && x !in unlocked && k.unlockedAtMinutes <= totalMinutes;
      var j :| 0 <= j < |keys| && keys[j] == k;
      assert k in chosen;
      var i :| 0 <= i < |chosen| && chosen[i] == k;
      assert r[i] == x;
    }
  }

  /** The newly unlocked keys keep the catalogue's order, so ascending
      thresholds stay ascending. */
  lemma NewlyUnlockedOrdered(keys: seq<MasteryKey>, unlocked: seq<string>, totalMinutes: int)
    requires ThresholdsAscending(keys)
    ensures ThresholdsAscending(NewKeys(keys, unlocked, totalMinutes))
  {
    var ascending := (a: MasteryKey, b: MasteryKey) => a.unlockedAtMinutes < b.unlockedAtMinutes;
    assert Ordered(keys, ascending);
    FilterKeepsOrder(keys, Unlockable(unlocked, totalMinutes), ascending);
    assert Ordered(NewKeys(keys, unlocked, totalMinutes), ascending);
  }

  /** A catalogue with distinct ids never reports an id twice. */
  lemma NewlyUnlockedDistinct(keys: seq<MasteryKey>, unlocked: seq<string>, totalMinutes: int)
    ensures DistinctIds(keys) ==> NoDuplicates(NewlyUnlocked(keys, unlocked, totalMinutes))
  {
    if DistinctIds(keys) {
      var distinct := (a: MasteryKey, b: MasteryKey) => a.id != b.id;
      assert Ordered(keys, distinct);
      FilterKeepsOrder(keys, Unlockable(unlocked, totalMinutes), distinct);
      assert Ordered(NewKeys(keys, unlocked, totalMinutes), distinct);
    }
  }

  /** The unlocked list never loses an id, and with distinct catalogue ids it
      never holds one twice; a list without repeats is simply extended by the
      newly unlocked ids. */
  lemma AfterUnlockKeepsAndGrows(keys: seq<MasteryKey>, unlocked: seq<string>, totalMinutes: int)
    ensures forall x :: x in unlocked ==> x in AfterUnlock(keys, unlocked, totalMinutes)
    ensures DistinctIds(keys) ==> NoDuplicates(AfterUnlock(keys, unlocked, totalMinutes))
    ensures NoDuplicates(unlocked) ==> AfterUnlock(keys, unlocked, totalMinutes) == unlocked + NewlyUnlocked(keys, unlocked, totalMinutes)
  {
    var d, n := Dedup(unlocked), NewlyUnlocked(keys, unlocked, totalMinutes);
    forall x | x in unlocked ensures x in d + n {
      var i :| 0 <= i < |unlocked| && unlocked[i] == x;
      assert x in d;
    }
    if DistinctIds(keys) {
      NewlyUnlockedDistinct(keys, unlocked, totalMinutes);
      forall x | x in n ensures x !in d {
        NewlyUnlockedExact(keys, unlocked, totalMinutes, x);
      }
      NoDuplicatesConcat(d, n);
    }
  }

  /** Evaluating again with the same or a smaller total unlocks nothing more. */
  lemma NewlyUnlockedOnce(keys: seq<MasteryKey>, unlocked: seq<string>, totalMinutes: int, laterTotal: int)
    requires laterTotal <= totalMinutes
    ensures NewlyUnlocked(keys, AfterUnlock(keys, unlocked, totalMinutes), laterTotal) == []
  {
    var after := AfterUnlock(keys, unlocked, totalMinutes);
    forall i | 0 <= i < |keys| ensures !Unlockable(after, laterTotal)(keys[i]) {
      var k := keys[i];
      if k.id !in unlocked && k.unlockedAtMinutes <= totalMinutes {
        NewlyUnlockedExact(keys, unlocked, totalMinutes, k.id);
      } else if k.id in unlocked {
        var m :| 0 <= m < |unlocked| && unlocked[m] == k.id;
        assert k.id in Dedup(unlocked);
      }
    }
    FilterKeepsNone(keys, Unlockable(after, laterTotal));
  }

  /** Once the total reaches every threshold, every key's id is in the unlocked list. */
  lemma AllKeysUnlocked(keys: seq<MasteryKey>, unlocked: seq<string>, totalMinutes: int)
    requires forall k :: k in keys ==> k.unlockedAtMinutes <= totalMinutes
    ensures forall k :: k in keys ==> k.id in AfterUnlock(keys, unlocked, totalMinutes)
  {
    forall k | k in keys ensures k.id in AfterUnlock(keys, unlocked, totalMinutes) {
      if k.id in unlocked {
        var m :| 0 <= m < |unlocked| && unlocked[m] == k.id;
        assert k.id in Dedup(unlocked);
      } else {
        NewlyUnlockedExact(keys, unlocked, totalMinutes, k.id);
      }
    }
  }

  /** From the creative threshold (500 hours) on, every catalogue key is unlocked. */
  lemma AllKeysUnlockedAtCreative(unlocked: seq<string>, totalMinutes: int)
    requires totalMinutes >= CREATIVE_THRESHOLD
    ensures forall k :: k in MASTERY_KEYS ==> k.id in AfterUnlock(MASTERY_KEYS, unlocked, totalMinutes)
  {
    LastKeyAtCreativeThreshold();
    AllKeysUnlocked(MASTERY_KEYS, unlocked, totalMinutes);
  }

  /** Filtering one more catalogue entry adds it at the end exactly when it passes. */
  lemma FilterPrefixStep(keys: seq<MasteryKey>, i: int, keep: MasteryKey -> bool)
    requires 0 <= i < |keys|
    ensures Filter(keys[..i + 1], keep) == Filter(keys[..i], keep) + (if keep(keys[i]) then [keys[i]] else [])
  {
    assert keys[..i + 1] == keys[..i] + [keys[i]];
    FilterAppend(keys[..i], [keys[i]], keep);
    assert [keys[i]][1..] == [];
  }

  /** With distinct ids, no key chosen before position `i` carries the id of key `i`. */
  lemma FreshIdAt(keys: seq<MasteryKey>, i: int, keep: MasteryKey -> bool)
    requires DistinctIds(keys) && 0 <= i < |keys|
    ensures keys[i].id !in KeyIds(Filter(keys[..i], keep))
  {
    var chosen := Filter(keys[..i], keep);
    forall j | 0 <= j < |chosen| ensures chosen[j].id != keys[i].id {
      var m :| 0 <= m < i && keys[..i][m] == chosen[j];
      assert keys[m] == chosen[j];
    }
  }

  /** The ids of a list with one more key. */
  lemma IdsSnoc(chosen: seq<MasteryKey>, k: MasteryKey)
    ensures KeyIds(chosen + [k]) == KeyIds(chosen) + [k.id]
  {
  }

  /** The loop of `checkUnlocks`: walks the catalogue in order, adding each
      reachable key not yet in the running id set. */
  method ScanCatalogue(keys: seq<MasteryKey>, unlocked: seq<string>, totalMinutes: int)
    returns (newlyUnlocked: seq<string>, updated: seq<string>)
    requires DistinctIds(keys)
    ensures newlyUnlocked == NewlyUnlocked(keys, unlocked, totalMinutes)
    ensures updated == AfterUnlock(keys, unlocked, totalMinutes)
  {
    var keep := Unlockable(unlocked, totalMinutes);
    var currentIds := Dedup(unlocked);
    newlyUnlocked := [];
    for i := 0 to |keys|
      invariant newlyUnlocked == KeyIds(Filter(keys[..i], keep))
      invariant currentIds == Dedup(unlocked) + newlyUnlocked
    {
      var key := keys[i];
      FilterPrefixStep(keys, i, keep);
      FreshIdAt(keys, i, keep);
      assert key.id in currentIds <==> key.id in unlocked;
      if key.id !in currentIds && totalMinutes >= key.unlockedAtMinutes {
        IdsSnoc(Filter(keys[..i], keep), key);
        currentIds := currentIds + [key.id];
        newlyUnlocked := newlyUnlocked + [key.id];
      }
    }
    assert keys[..|keys|] == keys;
    updated := currentIds;
  }

  // ----- Recalculation -----

  /** What `recalculate` derives from its inputs. */
  datatype Assessment = Assessment(
    focus: int,
    discipline: int,
    creativity: int,
    intuition: int,
    socialIntelligence: int,
    streak: Streaks.Streak)

  /** A progress record whose derived values are in range. */
  predicate WellFormed(p: MasteryProgress) {
    && 0 <= p.focus <= 100 && 0 <= p.discipline <= 100 && 0 <= p.creativity <= 100
    && 0 <= p.intuition <= 100 && 0 <= p.socialIntelligence <= 100
    && 0 <= p.currentStreak <= p.longestStreak
    && p.totalXp >= 0
    && NoDuplicates(p.unlockedKeyIds)
  }

  /** The row `setLifeTask` inserts: every column at its default, which is
      zero for the scores, the streaks and the XP, and no unlocked keys. */
  function ZeroProgress(lifeTaskId: string): (p: MasteryProgress)
    ensures WellFormed(p) && p.lifeTaskId == lifeTaskId
    ensures p.focus == p.discipline == p.creativity == p.intuition == p.socialIntelligence == 0
    ensures p.currentStreak == p.longestStreak == 0
    ensures p.totalXp == 0 && p.unlockedKeyIds == []
  {
    MasteryProgress(lifeTaskId, 0, 0, 0, 0, 0, 0, 0, 0, [])
  }

  /** The five scores and the streak for a session list, minute total and mentor aggregates. */
  function Assess(sessions: seq<PracticeSession>, totalMinutes: int, mentorCount: int, maxLevel: int): (a: Assessment)
    ensures 0 <= a.focus <= 100 && 0 <= a.discipline <= 100 && 0 <= a.creativity <= 100
    ensures 0 <= a.intuition <= 100 && 0 <= a.socialIntelligence <= 100
    ensures a.streak.current <= a.streak.longest
    ensures sessions == [] ==> a.streak == Streaks.Streak(0, 0) && a.focus == 0 && a.discipline == 0 && a.creativity == 0
  {
    Streaks.StreakBounds(sessions);
    var streak := Streaks.StreakOf(sessions);
    Assessment(
      Scores.Focus(sessions),
      Scores.Discipline(streak.current),
      Scores.Creativity(sessions),
      Scores.Intuition(totalMinutes),
      Scores.SocialIntelligence(mentorCount, maxLevel),
      streak)
  }

  /** The progress record with the assessed fields replaced. */
  function Reassessed(p: MasteryProgress, a: Assessment): (q: MasteryProgress)
    ensures q.(focus := p.focus, discipline := p.discipline, creativity := p.creativity,
               intuition := p.intuition, socialIntelligence := p.socialIntelligence,
               currentStreak := p.currentStreak, longestStreak := p.longestStreak) == p
    ensures && q.focus == a.focus && q.discipline == a.discipline && q.creativity == a.creativity
            && q.intuition == a.intuition && q.socialIntelligence == a.socialIntelligence
            && q.currentStreak == a.streak.current && q.longestStreak == a.streak.longest
  {
    p.(focus := a.focus, discipline := a.discipline, creativity := a.creativity,
       intuition := a.intuition, socialIntelligence := a.socialIntelligence,
       currentStreak := a.streak.current, longestStreak := a.streak.longest)
  }

  /** The `UPDATE mastery_progress` statement of `recalculate`. */
  function ScoresRow(lifeTaskId: string, a: Assessment): Write {
    UpdateScores(lifeTaskId, a.focus, a.discipline, a.creativity, a.intuition,
                 a.socialIntelligence, a.streak.current, a.streak.longest)
  }

  /** The record after `checkUnlocks` at `totalMinutes`: the grown unlocked
      list if some key was newly unlocked, otherwise the record as it was. */
  function WithUnlocks(keys: seq<MasteryKey>, p: MasteryProgress, totalMinutes: int): (q: MasteryProgress)
    ensures q.(unlockedKeyIds := p.unlockedKeyIds) == p
    ensures DistinctIds(keys) && NoDuplicates(p.unlockedKeyIds) ==> NoDuplicates(q.unlockedKeyIds)
    ensures forall x :: x in p.unlockedKeyIds ==> x in q.unlockedKeyIds
  {
    AfterUnlockKeepsAndGrows(keys, p.unlockedKeyIds, totalMinutes);
    if NewlyUnlocked(keys, p.unlockedKeyIds, totalMinutes) == [] then p
    else p.(unlockedKeyIds := AfterUnlock(keys, p.unlockedKeyIds, totalMinutes))
  }

  /** Whether or not anything was new, the record `checkUnlocks` keeps
      unlocks nothing more at the same or a smaller total. */
  lemma WithUnlocksOnce(keys: seq<MasteryKey>, p: MasteryProgress, totalMinutes: int, laterTotal: int)
    requires laterTotal <= totalMinutes
    ensures NewlyUnlocked(keys, WithUnlocks(keys, p, totalMinutes).unlockedKeyIds, laterTotal) == []
  {
    if NewlyUnlocked(keys, p.unlockedKeyIds, totalMinutes) == [] {
      forall i | 0 <= i < |keys| ensures !Unlockable(p.unlockedKeyIds, laterTotal)(keys[i]) {
        NewlyUnlockedExact(keys, p.unlockedKeyIds, totalMinutes, keys[i].id);
      }
      FilterKeepsNone(keys, Unlockable(p.unlockedKeyIds, laterTotal));
    } else {
      NewlyUnlockedOnce(keys, p.unlockedKeyIds, totalMinutes, laterTotal);
    }
  }

  /** The record after `addXp(amount)`. */
  function WithXp(p: MasteryProgress, amount: int): (q: MasteryProgress)
    ensures q.(totalXp := p.totalXp) == p && q.totalXp == p.totalXp + amount
  {
    p.(totalXp := p.totalXp + amount)
  }

  /** Reassessing keeps a record well formed and leaves the XP total and the
      unlocked keys as they were. */
  lemma ReassessedKeepsTheRest(p: MasteryProgress, sessions: seq<PracticeSession>,
                               totalMinutes: int, mentorCount: int, maxLevel: int)
    requires WellFormed(p)
    ensures var q := Reassessed(p, Assess(sessions, totalMinutes, mentorCount, maxLevel));
      WellFormed(q) && q.lifeTaskId == p.lifeTaskId && q.totalXp == p.totalXp && q.unlockedKeyIds == p.unlockedKeyIds
  {
  }

  class ProgressStore {
    /** The catalogue `checkUnlocks` walks: fixed to MASTERY_KEYS at construction. */
    const keys: seq<MasteryKey>
    var progress: Option<MasteryProgress>

    /** The store starts without a loaded record, over the mastery-key catalogue. */
    constructor ()
      ensures keys == MASTERY_KEYS && CatalogueOk()
      ensures progress == None
    {
      keys := MASTERY_KEYS;
      progress := None;
      CatalogueThresholds();
      CatalogueIdsDistinct();
    }

    /** The catalogue's ids are distinct and its thresholds ascend. */
    ghost predicate CatalogueOk() {
      DistinctIds(keys) && ThresholdsAscending(keys)
    }

    ghost predicate Valid()
      reads this
    {
      progress.Some? ==> WellFormed(progress.value)
    }

    /** `load`: the record becomes the row the database returns for the
        task, or none when there is no row. The row is a parameter. */
    method Load(row: Option<MasteryProgress>)
      modifies this
      ensures progress == row
      ensures row.None? || WellFormed(row.value) ==> Valid()
    {
      progress := row;
    }

    /** `recalculate`: writes the streak and the five scores to the database,
        then into the in-memory record if there is one. */
    method Recalculate(db: Database, lifeTaskId: string, sessions: seq<PracticeSession>,
                       totalMinutes: int, mentorCount: int, maxLevel: int, today: Day)
      modifies this, db
      ensures var a := Assess(sessions, totalMinutes, mentorCount, maxLevel);
        && db.log == old(db.log) + [ScoresRow(lifeTaskId, a)]
        && progress == if old(progress).Some? then Some(Reassessed(old(progress).value, a)) else None
      ensures old(Valid()) ==> Valid()
    {
      var current, longest := Streaks.CalculateStreak(sessions, today);
      var focus := Scores.Focus(sessions);
      var discipline := Scores.Discipline(current);
      var creativity := Scores.Creativity(sessions);
      var intuition := Scores.Intuition(totalMinutes);
      var socialIntelligence := Scores.SocialIntelligence(mentorCount, maxLevel);
      db.log := db.log + [UpdateScores(lifeTaskId, focus, discipline, creativity, intuition,
                                       socialIntelligence, current, longest)];
      if progress.Some? {
        progress := Some(progress.value.(
          focus := focus, discipline := discipline, creativity := creativity,
          intuition := intuition, socialIntelligence := socialIntelligence,
          currentStreak := current, longestStreak := longest));
      }
    }

    /** `addXp`: adds `amount` to the stored total, and to the in-memory one if there is a record. */
    method AddXp(db: Database, lifeTaskId: string, amount: int)
      modifies this, db
      ensures db.log == old(db.log) + [Write.AddXp(lifeTaskId, amount)]
      ensures progress == if old(progress).Some? then Some(WithXp(old(progress).value, amount)) else None
      ensures old(Valid()) && amount >= 0 ==> Valid()
    {
      db.log := db.log + [Write.AddXp(lifeTaskId, amount)];
      if progress.Some? {
        progress := Some(progress.value.(totalXp := progress.value.totalXp + amount));
      }
    }

    /** `checkUnlocks`: without a record, reports nothing and writes nothing;
        otherwise reports the newly unlocked ids and, only if there are any,
        stores the grown list. */
    method CheckUnlocks(db: Database, lifeTaskId: string, totalMinutes: int)
      returns (newlyUnlocked: seq<string>)
      requires CatalogueOk()
      modifies this, db
      ensures old(progress).None? ==> newlyUnlocked == []
      ensures old(progress).Some? ==>
        newlyUnlocked == NewlyUnlocked(keys, old(progress).value.unlockedKeyIds, totalMinutes)
      ensures progress == if old(progress).Some? then Some(WithUnlocks(keys, old(progress).value, totalMinutes)) else None
      ensures newlyUnlocked == [] ==> db.log == old(db.log)
      ensures newlyUnlocked != [] ==>
        && old(progress).Some?
        && db.log == old(db.log) + [UpdateUnlockedKeys(lifeTaskId, AfterUnlock(keys, old(progress).value.unlockedKeyIds, totalMinutes))]
      ensures old(Valid()) ==> Valid()
      ensures progress.Some? ==>
        forall laterTotal :: laterTotal <= totalMinutes ==> NewlyUnlocked(keys, progress.value.unlockedKeyIds, laterTotal) == []
    {
      if progress.None? {
        return [];
      }
      var existing := progress.value;
      var updated;
      newlyUnlocked, updated := ScanCatalogue(keys, existing.unlockedKeyIds, totalMinutes);
      if |newlyUnlocked| > 0 {
        db.log := db.log + [UpdateUnlockedKeys(lifeTaskId, updated)];
        progress := Some(existing.(unlockedKeyIds := updated));
        AfterUnlockKeepsAndGrows(keys, existing.unlockedKeyIds, totalMinutes);
      }
      forall laterTotal | laterTotal <= totalMinutes
        ensures NewlyUnlocked(keys, WithUnlocks(keys, existing, totalMinutes).unlockedKeyIds, laterTotal) == []
      {
        WithUnlocksOnce(keys, existing, totalMinutes, laterTotal);
      }
    }
  }
}
