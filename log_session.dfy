/** The save handler of the session-logging screen (app/log-session.tsx):
    the one place where the stores are driven together. Saving a session
    records it, adds its minutes to the life's task, recomputes the scores,
    evaluates the mastery keys and awards experience, in that order. */
module LogSession {
  import opened Types
  import opened Db
  import opened MasteryKeys
  import Scores
  import Streaks
  import Progress
  import Users
  import Sessions
  import Mentors

  /** The durations, in minutes, the screen offers. */
  const DURATIONS: seq<int> := [15, 30, 45, 60, 90, 120]

  // ----- Experience -----

  /** `Math.round(duration * (quality / 5) * 2)`: the experience a session earns. */
  function SessionXp(duration: int, quality: Quality): (xp: int)
    ensures duration >= 0 ==> xp >= 0
  {
    Scores.MulMonotone(2 * quality, 0, duration);
    Scores.RoundHalfUp(2 * duration * quality, 5)
  }

  /** The reward is the nearest whole number to 2 * duration * quality / 5,
      halves rounded up, and it grows with the duration. */
  lemma SessionXpIsNearest(duration: int, quality: Quality, longer: int)
    requires duration <= longer
    ensures var xp := SessionXp(duration, quality); 10 * xp - 5 <= 4 * duration * quality < 10 * xp + 5
    ensures SessionXp(duration, quality) <= SessionXp(longer, quality)
  {
    Scores.MulMonotone(2 * quality, duration, longer);
    assert 2 * duration * quality == (2 * quality) * duration && 2 * longer * quality == (2 * quality) * longer;
    Scores.RoundMonotone(2 * duration * quality, 2 * longer * quality, 5);
  }

  /** For every duration the screen offers the reward is exact (no rounding
      happens) and lies between 6 and 240. */
  lemma SessionXpOnPicker(duration: int, quality: Quality)
    requires duration in DURATIONS
    ensures 5 * SessionXp(duration, quality) == 2 * duration * quality
    ensures 6 <= SessionXp(duration, quality) <= 240
  {
    var k := duration / 15;
    assert duration == 15 * k && 1 <= k <= 8;
    assert 2 * duration * quality == (6 * k * quality) * 5;
    Scores.RoundWhole(6 * k * quality, 5);
    Scores.MulMonotone(6 * k, quality, 5);
    Scores.MulMonotone(6 * k, 1, quality);
    Scores.MulMonotone(quality, k, 8);
    assert 6 * k * quality == 6 * (k * quality) && 6 * k * 5 == 30 * k;
  }

  /** The default selection, 45 minutes at quality 3, earns 54; at quality 4
      it earns 72. */
  lemma DefaultSessionXp()
    ensures SessionXp(45, 3) == 54 && SessionXp(45, 4) == 72
    ensures SessionXp(15, 1) == 6 && SessionXp(120, 5) == 240
  {
  }

  // ----- Mentor aggregate -----

  /** `mentors.length > 0 ? Math.max(...mentors.map((m) => m.relationshipLevel)) : 0` */
  function MaxLevel(mentors: seq<Mentor>): (r: int)
    ensures mentors == [] ==> r == 0
    ensures mentors != [] ==> 1 <= r <= 5
    ensures mentors != [] ==> exists i :: 0 <= i < |mentors| && mentors[i].relationshipLevel == r
    ensures forall i :: 0 <= i < |mentors| ==> mentors[i].relationshipLevel <= r
  {
    if mentors == [] then 0
    else
      var rest := MaxLevel(mentors[1..]);
      if rest <= mentors[0].relationshipLevel then mentors[0].relationshipLevel
      else
        assert mentors[1..] != [];
        rest
  }

  /** Social intelligence is 0 without mentors and 20 for a single new
      mentor (relationship level 1). */
  lemma SocialFromFewMentors(m: Mentor)
    requires m.relationshipLevel == 1
    ensures Scores.SocialIntelligence(0, MaxLevel([])) == 0
    ensures Scores.SocialIntelligence(1, MaxLevel([m])) == 20
  {
    assert MaxLevel([]) == 0;
    var one := [m];
    assert one[1..] == [];
    assert MaxLevel(one) == MaxLevel(one[1..]) + 1;
    assert Scores.SocialIntelligence(1, 1) == 20;
  }

  /** From nine mentors on, social intelligence is 100 whatever their levels. */
  lemma SocialFromNineMentors(mentors: seq<Mentor>)
    requires |mentors| >= 9
    ensures Scores.SocialIntelligence(|mentors|, MaxLevel(mentors)) == 100
  {
  }

  // ----- Notes -----

  /** The characters `String.prototype.trim` strips: JavaScript's white
      space and line terminators. */
  predicate IsJsWhitespace(c: char) {
    var n := c as int;
    || n == 0x09 || n == 0x0A || n == 0x0B || n == 0x0C || n == 0x0D || n == 0x20
    || n == 0xA0 || n == 0x1680 || (0x2000 <= n <= 0x200A) || n == 0x2028 || n == 0x2029
    || n == 0x202F || n == 0x205F || n == 0x3000 || n == 0xFEFF
  }

  /** The string without its leading white space. */
  function TrimStart(s: string): string {
    if s != [] && IsJsWhitespace(s[0]) then TrimStart(s[1..]) else s
  }

  /** The string without its trailing white space. */
  function TrimEnd(s: string): string {
    if s != [] && IsJsWhitespace(s[|s| - 1]) then TrimEnd(s[..|s| - 1]) else s
  }

  /** `notes.trim()` */
  function Trim(s: string): (t: string)
    ensures |t| <= |s|
    ensures t == [] || (!IsJsWhitespace(t[0]) && !IsJsWhitespace(t[|t| - 1]))
  {
    TrimStartShape(s);
    TrimEndShape(TrimStart(s));
    TrimEnd(TrimStart(s))
  }

  /** Stripping the front leaves a suffix that is empty or starts with a
      character other than white space, and cuts off only white space. */
  lemma {:induction false} TrimStartShape(s: string)
    ensures var r := TrimStart(s);
      && |r| <= |s| && r == s[|s| - |r|..]
      && (r == [] || !IsJsWhitespace(r[0]))
      && forall i :: 0 <= i < |s| - |r| ==> IsJsWhitespace(s[i])
  {
    if s != [] && IsJsWhitespace(s[0]) {
      TrimStartShape(s[1..]);
      assert forall i :: 1 <= i < |s| ==> s[i] == s[1..][i - 1];
    }
  }

  /** Stripping the back leaves a prefix that is empty or ends with a
      character other than white space, and cuts off only white space. */
  lemma {:induction false} TrimEndShape(s: string)
    ensures var r := TrimEnd(s);
      && |r| <= |s| && r == s[..|r|]
      && (r == [] || !IsJsWhitespace(r[|r| - 1]))
      && forall i :: |r| <= i < |s| ==> IsJsWhitespace(s[i])
  {
    if s != [] && IsJsWhitespace(s[|s| - 1]) {
      TrimEndShape(s[..|s| - 1]);
      assert forall i :: 0 <= i < |s| - 1 ==> s[i] == s[..|s| - 1][i];
    }
  }

  /** Trimmed notes are the part of the input between its leading and its
      trailing white space: they neither start nor end with white space, and
      everything cut off is white space. Trimming twice changes nothing more. */
  lemma TrimProperties(s: string)
    ensures var t := Trim(s); t == [] || (!IsJsWhitespace(t[0]) && !IsJsWhitespace(t[|t| - 1]))
    ensures exists i, j ::
      && 0 <= i <= j <= |s| && Trim(s) == s[i..j]
      && (forall k :: 0 <= k < i ==> IsJsWhitespace(s[k]))
      && (forall k :: j <= k < |s| ==> IsJsWhitespace(s[k]))
    ensures Trim(Trim(s)) == Trim(s)
  {
    var u := TrimStart(s);
    var t := TrimEnd(u);
    TrimStartShape(s);
    TrimEndShape(u);
    var i := |s| - |u|;
    assert t == s[i..i + |t|];
    assert forall k :: i + |t| <= k < |s| ==> s[k] == u[k - i];
    if t != [] {
      assert t[0] == u[0];
    }
    assert TrimStart(t) == t;
    assert TrimEnd(t) == t;
  }

  // ----- Saving a session -----

  /** The progress record once a save has recalculated it from `allSessions`,
      evaluated the keys at `newTotal` and awarded `xp`. */
  function AfterSave(keys: seq<MasteryKey>, p: Option<MasteryProgress>, allSessions: seq<PracticeSession>, newTotal: int,
                     mentors: seq<Mentor>, xp: int): (r: Option<MasteryProgress>)
    ensures r.Some? <==> p.Some?
    ensures DistinctIds(keys) && p.Some? && Progress.WellFormed(p.value) && xp >= 0 ==> Progress.WellFormed(r.value)
    ensures p.Some? ==> r.value.totalXp == p.value.totalXp + xp && r.value.lifeTaskId == p.value.lifeTaskId
  {
    if p.None? then None
    else
      var a := Progress.Assess(allSessions, newTotal, |mentors|, MaxLevel(mentors));
      Some(Progress.WithXp(Progress.WithUnlocks(keys, Progress.Reassessed(p.value, a), newTotal), xp))
  }

  /** The record after a save holds the streak of the list it was recalculated from. */
  lemma AfterSaveStreak(keys: seq<MasteryKey>, p: Option<MasteryProgress>, allSessions: seq<PracticeSession>, newTotal: int,
                        mentors: seq<Mentor>, xp: int)
    requires p.Some?
    ensures var r := AfterSave(keys, p, allSessions, newTotal, mentors, xp).value;
      Streaks.Streak(r.currentStreak, r.longestStreak) == Streaks.StreakOf(allSessions)
  {
    Streaks.StreakBounds(allSessions);
  }

  /** The writes a save issues after the minutes update: the scores, the
      unlocked keys when a key was unlocked, and the experience. */
  function ProgressWrites(keys: seq<MasteryKey>, lifeTaskId: string, p: Option<MasteryProgress>, allSessions: seq<PracticeSession>,
                          newTotal: int, mentors: seq<Mentor>, xp: int): seq<Write>
  {
    var a := Progress.Assess(allSessions, newTotal, |mentors|, MaxLevel(mentors));
    var unlockRow :=
      if p.Some? && Progress.NewlyUnlocked(keys, p.value.unlockedKeyIds, newTotal) != []
      then [UpdateUnlockedKeys(lifeTaskId, Progress.AfterUnlock(keys, p.value.unlockedKeyIds, newTotal))]
      else [];
    [Progress.ScoresRow(lifeTaskId, a)] + unlockRow + [AddXp(lifeTaskId, xp)]
  }

  /** The second half of `handleSave`: recalculate, check the keys, award the
      experience. The award is the same whether or not a key was unlocked;
      only the alert differs. */
  method RecordProgress(db: Database, progress: Progress.ProgressStore, lifeTaskId: string,
                        allSessions: seq<PracticeSession>, newTotal: int, mentors: seq<Mentor>,
                        xp: int, today: Day)
    returns (newlyUnlocked: seq<string>)
    requires progress.CatalogueOk()
    modifies db, progress
    ensures newlyUnlocked == if old(progress.progress).Some?
      then Progress.NewlyUnlocked(progress.keys, old(progress.progress).value.unlockedKeyIds, newTotal)
      else []
    ensures progress.progress == AfterSave(progress.keys, old(progress.progress), allSessions, newTotal, mentors, xp)
    ensures db.log == old(db.log) + ProgressWrites(progress.keys, lifeTaskId, old(progress.progress), allSessions, newTotal, mentors, xp)
    ensures xp >= 0 && old(progress.Valid()) ==> progress.Valid()
  {
    ghost var log0 := db.log;
    ghost var p0 := progress.progress;
    var maxLevel := MaxLevel(mentors);
    ghost var a := Progress.Assess(allSessions, newTotal, |mentors|, maxLevel);
    progress.Recalculate(db, lifeTaskId, allSessions, newTotal, |mentors|, maxLevel, today);
    ghost var log1 := db.log;
    assert log1 == log0 + [Progress.ScoresRow(lifeTaskId, a)];
    assert p0.Some? ==> progress.progress.value.unlockedKeyIds == p0.value.unlockedKeyIds;
    newlyUnlocked := progress.CheckUnlocks(db, lifeTaskId, newTotal);
    ghost var log2 := db.log;
    ghost var unlockRow :=
      if p0.Some? && Progress.NewlyUnlocked(progress.keys, p0.value.unlockedKeyIds, newTotal) != []
      then [UpdateUnlockedKeys(lifeTaskId, Progress.AfterUnlock(progress.keys, p0.value.unlockedKeyIds, newTotal))]
      else [];
    assert log2 == log1 + unlockRow;
    progress.AddXp(db, lifeTaskId, xp);
    assert db.log == log2 + [AddXp(lifeTaskId, xp)];
    assert db.log == log0 + ([Progress.ScoresRow(lifeTaskId, a)] + unlockRow + [AddXp(lifeTaskId, xp)]);
  }

  /** The first half of `handleSave`: records the session under the task
      with its notes trimmed, then adds its minutes to the task. */
  method RecordSession(db: Database, users: Users.UserStore, store: Sessions.SessionStore,
                       duration: int, quality: Quality, sessionType: SessionType, notes: string,
                       id: string, today: Day, createdAt: string)
    returns (s: PracticeSession)
    requires users.lifeTask.Some?
    modifies db, users, store
    ensures var t := old(users.lifeTask).value;
      && s == PracticeSession(id, t.id, today, duration, quality, sessionType, Trim(notes), createdAt)
      && store.sessions == [s] + old(store.sessions)
      && users.lifeTask == Some(Users.WithMinutes(t, duration))
      && db.log == old(db.log) + [InsertSession(s), UpdateLifeTaskMinutes(t.id, t.totalMinutes + duration, Users.GetPhase(t.totalMinutes + duration))]
    ensures users.user == old(users.user)
    ensures old(users.Valid()) ==> users.Valid()
  {
    var lifeTask := users.lifeTask.value;
    ghost var log0 := db.log;
    s := store.AddSession(db, lifeTask.id, duration, quality, sessionType, Trim(notes), id, today, createdAt);
    ghost var log1 := db.log;
    users.AddMinutes(db, duration);
    assert db.log == log1 + [UpdateLifeTaskMinutes(lifeTask.id, lifeTask.totalMinutes + duration, Users.GetPhase(lifeTask.totalMinutes + duration))];
  }

  /** `handleSave` as written: the scores are recalculated from the session
      list the screen rendered with, which does not yet hold the session just
      saved. Without a life's task it does nothing. */
  method HandleSaveAsWritten(db: Database, users: Users.UserStore, store: Sessions.SessionStore,
                             progress: Progress.ProgressStore, mentorStore: Mentors.MentorStore,
                             duration: int, quality: Quality, sessionType: SessionType, notes: string,
                             id: string, today: Day, createdAt: string)
    returns (newlyUnlocked: seq<string>)
    requires progress.CatalogueOk()
    modifies db, users, store, progress
    ensures old(users.lifeTask).None? ==>
      && newlyUnlocked == [] && db.log == old(db.log) && users.lifeTask == old(users.lifeTask)
      && store.sessions == old(store.sessions) && progress.progress == old(progress.progress)
    ensures old(users.lifeTask).Some? ==>
      var t := old(users.lifeTask).value;
      var s := PracticeSession(id, t.id, today, duration, quality, sessionType, Trim(notes), createdAt);
      var newTotal := t.totalMinutes + duration;
      var mentors := mentorStore.mentors;
      var xp := SessionXp(duration, quality);
      && store.sessions == [s] + old(store.sessions)
      && users.lifeTask == Some(Users.WithMinutes(t, duration))
      && progress.progress == AfterSave(progress.keys, old(progress.progress), old(store.sessions), newTotal, mentors, xp)
      && newlyUnlocked == (if old(progress.progress).Some?
                           then Progress.NewlyUnlocked(progress.keys, old(progress.progress).value.unlockedKeyIds, newTotal)
                           else [])
      && db.log == old(db.log) + [InsertSession(s), UpdateLifeTaskMinutes(t.id, newTotal, Users.GetPhase(newTotal))]
                   + ProgressWrites(progress.keys, t.id, old(progress.progress), old(store.sessions), newTotal, mentors, xp)
    ensures users.user == old(users.user)
    ensures old(users.Valid()) ==> users.Valid()
    ensures duration >= 0 && old(progress.Valid()) ==> progress.Valid()
  {
    if users.lifeTask.None? {
      return [];
    }
    var lifeTask := users.lifeTask.value;
    // the list the screen rendered with, captured before the save
    var allSessions := store.sessions;
    var s := RecordSession(db, users, store, duration, quality, sessionType, notes, id, today, createdAt);
    var newTotal := lifeTask.totalMinutes + duration;
    var xp := SessionXp(duration, quality);
    assert progress.progress == old(progress.progress);
    newlyUnlocked := RecordProgress(db, progress, lifeTask.id, allSessions, newTotal, mentorStore.mentors, xp, today);
  }

  /** `handleSave` recalculating from the list that holds the new session:
      the stored streak and scores then describe the store's sessions. */
  method HandleSave(db: Database, users: Users.UserStore, store: Sessions.SessionStore,
                    progress: Progress.ProgressStore, mentorStore: Mentors.MentorStore,
                    duration: int, quality: Quality, sessionType: SessionType, notes: string,
                    id: string, today: Day, createdAt: string)
    returns (newlyUnlocked: seq<string>)
    requires progress.CatalogueOk()
    modifies db, users, store, progress
    ensures old(users.lifeTask).None? ==>
      && newlyUnlocked == [] && db.log == old(db.log) && users.lifeTask == old(users.lifeTask)
      && store.sessions == old(store.sessions) && progress.progress == old(progress.progress)
    ensures old(users.lifeTask).Some? ==>
      var t := old(users.lifeTask).value;
      var s := PracticeSession(id, t.id, today, duration, quality, sessionType, Trim(notes), createdAt);
      var newTotal := t.totalMinutes + duration;
      var mentors := mentorStore.mentors;
      var xp := SessionXp(duration, quality);
      && store.sessions == [s] + old(store.sessions)
      && users.lifeTask == Some(Users.WithMinutes(t, duration))
      && progress.progress == AfterSave(progress.keys, old(progress.progress), store.sessions, newTotal, mentors, xp)
      && newlyUnlocked == (if old(progress.progress).Some?
                           then Progress.NewlyUnlocked(progress.keys, old(progress.progress).value.unlockedKeyIds, newTotal)
                           else [])
      && db.log == old(db.log) + [InsertSession(s), UpdateLifeTaskMinutes(t.id, newTotal, Users.GetPhase(newTotal))]
                   + ProgressWrites(progress.keys, t.id, old(progress.progress), store.sessions, newTotal, mentors, xp)
    ensures users.user == old(users.user)
    ensures old(users.Valid()) ==> users.Valid()
    ensures duration >= 0 && old(progress.Valid()) ==> progress.Valid()
  {
    if users.lifeTask.None? {
      return [];
    }
    var lifeTask := users.lifeTask.value;
    var s := RecordSession(db, users, store, duration, quality, sessionType, notes, id, today, createdAt);
    var newTotal := lifeTask.totalMinutes + duration;
    var allSessions := store.sessions;
    var xp := SessionXp(duration, quality);
    newlyUnlocked := RecordProgress(db, progress, lifeTask.id, allSessions, newTotal, mentorStore.mentors, xp, today);
  }

  /** The discipline score of a one-day streak. */
  lemma DisciplineOfOneDay()
    ensures Scores.Discipline(1) == 3
  {
  }

  /** One session, on any day, assesses to a streak of (1, 1) and discipline 3. */
  lemma OneSessionAssessed(s: PracticeSession, newTotal: int, mentors: seq<Mentor>)
    ensures var a := Progress.Assess([s], newTotal, |mentors|, MaxLevel(mentors));
      a.streak == Streaks.Streak(1, 1) && a.discipline == 3
  {
    Streaks.StreakOfOneSession(s);
    DisciplineOfOneDay();
  }

  /** The stale list matters from the very first session: saving one session
      into an empty list and recalculating from the empty list stores a
      streak of 0 and discipline 0, while the store's list, holding that one
      session, has a streak of 1 and discipline 3. */
  lemma StaleSessionsCounterexample(s: PracticeSession, newTotal: int, mentors: seq<Mentor>)
    ensures Progress.Assess([], newTotal, |mentors|, MaxLevel(mentors)).streak == Streaks.Streak(0, 0)
    ensures Progress.Assess([], newTotal, |mentors|, MaxLevel(mentors)).discipline == 0
    ensures Progress.Assess([s], newTotal, |mentors|, MaxLevel(mentors)).streak == Streaks.Streak(1, 1)
    ensures Progress.Assess([s], newTotal, |mentors|, MaxLevel(mentors)).discipline == 3
  {
    OneSessionAssessed(s, newTotal, mentors);
  }

  /** The as-written handler on an empty session list: the first session is
      saved, yet the record it leaves holds a streak of (0, 0), while the
      session store, now holding that session, has a streak of (1, 1). */
  method StaleFirstSave(db: Database, users: Users.UserStore, store: Sessions.SessionStore,
                        progress: Progress.ProgressStore, mentorStore: Mentors.MentorStore,
                        duration: int, quality: Quality, sessionType: SessionType, notes: string,
                        id: string, today: Day, createdAt: string)
    returns (stored: Streaks.Streak, actual: Streaks.Streak)
    requires progress.CatalogueOk()
    requires users.lifeTask.Some? && progress.progress.Some? && store.sessions == []
    modifies db, users, store, progress
    ensures progress.progress.Some? && |store.sessions| == 1
    ensures stored.current == progress.progress.value.currentStreak && stored.longest == progress.progress.value.longestStreak
    ensures actual == Streaks.StreakOf(store.sessions)
    ensures stored == Streaks.Streak(0, 0) && actual == Streaks.Streak(1, 1)
  {
    var _ := HandleSaveAsWritten(db, users, store, progress, mentorStore, duration, quality,
                                 sessionType, notes, id, today, createdAt);
    AfterSaveStreak(progress.keys, old(progress.progress), [], old(users.lifeTask).value.totalMinutes + duration,
                    mentorStore.mentors, SessionXp(duration, quality));
    Streaks.StreakBounds([]);
    var record := progress.progress.value;
    stored := Streaks.Streak(record.currentStreak, record.longestStreak);
    var current, longest := Streaks.CalculateStreak(store.sessions, today);
    actual := Streaks.Streak(current, longest);
    Streaks.StreakOfOneSession(store.sessions[0]);
    assert store.sessions == [store.sessions[0]];
  }
}
