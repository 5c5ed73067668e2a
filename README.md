# Mastery tracker: progress-derivation engine

A Dafny model of the core of a habit and mastery tracking app. The user logs
practice sessions toward a self-declared "life's task". From the logged
sessions, the user's mentors and the accumulated minutes, the app derives:

- the task's phase: apprentice, creative or master;
- the current and longest streak of consecutive practice days;
- five attribute scores from 0 to 100: focus, discipline, creativity,
  intuition and social intelligence;
- the mastery keys (insight cards) unlocked by crossing minute thresholds;
- the experience (XP) total.

The model follows the source's structure, one module per file:

| module | file | what it holds |
|---|---|---|
| `Types` | types.dfy | the entities of `src/types/index.ts` as datatypes; a calendar date is an `int` day number |
| `Seqs` | seqs.dfy | JavaScript's `filter` and the order-keeping de-duplication `[...new Set(xs)]` |
| `Db` | db.dfy | the SQLite database reduced to a ghost log of the write statements issued |
| `MasteryKeys` | mastery_keys.dfy | the key catalogue and the phase thresholds |
| `Streaks` | streaks.dfy | `calculateStreak`: the loop, and the run-length specification it is proved against |
| `Scores` | scores.dfy | `clamp`, exact round-half-up, and the five score formulas |
| `Progress` | progress.dfy | the unlock evaluator and the progress store (`recalculate`, `addXp`, `checkUnlocks`) |
| `Users` | users.dfy | `getPhase` and the user store (`createUser`, `setLifeTask`, `completeOnboarding`, `addMinutes`) |
| `Sessions` | sessions.dfy | the session store and its "today" queries |
| `Mentors` | mentors.dfy | the mentor store |
| `Projects` | projects.dfy | the project store |
| `LogSession` | log_session.dfy | the save handler of the session-logging screen, which drives all the stores |

Each zustand store is a class whose fields are the store's in-memory state.
Each store operation is a method that takes the shared `Db.Database`. Its
`ensures` give the new in-memory state and the exact statements appended to
the database log.

Ambient inputs are parameters:

- the current day `today`;
- fresh ids and ISO timestamps;
- the value of `Math.random()`, as a real in [0, 1).

`Math.round(n / d)` for a non-negative rational is computed exactly on
integers as `(2n + d) / (2d)`, which rounds halves up.

The streak calculator starts its walk with `today` as the first expected
day. `Streaks.CalculateStreak` proves that the result does not depend on
`today`. The current streak is the length of the newest run of consecutive
days, whether or not that run reaches today.

## Model

| member | source | states |
|---|---|---|
| `Scores.Clamp` | src/stores/useProgressStore.ts:21-23 | the result lies in [0, 100]; it is the input itself inside that range, 0 below it and 100 above it |
| `Scores.RoundHalfUp` | src/stores/useProgressStore.ts:90 | `Math.round(n/d)` is the integer r with 2dr - d <= 2n < 2dr + d, the nearest integer with halves rounded up |
| `Scores.RoundWhole` | src/stores/useProgressStore.ts:90 | rounding a whole quotient returns it unchanged |
| `Scores.RoundMonotone` | src/stores/useProgressStore.ts:90 | rounding never decreases as the numerator grows |
| `Scores.QualitySumBounds` | src/stores/useProgressStore.ts:88 | since each quality is 1..5, the quality sum lies between the count and five times the count |
| `Scores.FocusScore` | src/stores/useProgressStore.ts:86-90 | focus lies in [0, 100] and is 0 with no deliberate sessions |
| `Scores.Focus` | src/stores/useProgressStore.ts:86-90 | the focus of a session list lies in [0, 100] and is 0 when no session is deliberate |
| `Scores.FocusRange` | src/stores/useProgressStore.ts:86-90 | focus is 0 without deliberate sessions, and otherwise between 20 (average quality 1) and 100 |
| `Scores.FocusExamples` | src/stores/useProgressStore.ts:86-90 | deliberate qualities 3 and 5 give 80; a single 5 gives 100; none gives 0 |
| `Scores.Discipline` | src/stores/useProgressStore.ts:93 | discipline lies in [0, 100] |
| `Scores.DisciplineValues` | src/stores/useProgressStore.ts:93 | discipline is 0 at streak 0, 50 at 15 and 100 from 30 days on; it never falls as the streak grows |
| `Scores.CreativityScore` | src/stores/useProgressStore.ts:96-97 | creativity lies in [0, 100] |
| `Scores.Creativity` | src/stores/useProgressStore.ts:96-97 | the creativity of a session list lies in [0, 100] and is 0 for no sessions |
| `Scores.CreativityValues` | src/stores/useProgressStore.ts:96-97 | creativity is 0 with no sessions and 20 for 1 observational session in 10; it is 100 once half the sessions are observational |
| `Scores.Intuition` | src/stores/useProgressStore.ts:100-102 | intuition lies in [0, 100] and is 0 below the creative threshold of 30000 minutes |
| `Scores.IntuitionValues` | src/stores/useProgressStore.ts:100-102 | intuition is 100 from the master threshold of 300000 minutes on; it never falls as the minutes grow |
| `Scores.SocialIntelligence` | src/stores/useProgressStore.ts:105-107 | social intelligence is min(10 * mentorCount + 10 * maxLevel, 100) for non-negative inputs, and always in [0, 100] |
| `Seqs.Dedup` | src/stores/useProgressStore.ts:144-154 | `[...new Set(xs)]` has no repeats and the same elements as xs, and a list without repeats passes through unchanged |
| `Seqs.DedupIsSubsequence` | src/stores/useProgressStore.ts:144-154 | `[...new Set(xs)]` is a subsequence of xs, so the kept ids stay in list order |
| `Seqs.Filter` | src/stores/useSessionStore.ts:65-70 | `filter` returns only elements of its input that pass, and every element that passes |
| `Seqs.FilterIsSubsequence` | src/stores/useSessionStore.ts:65-70 | `filter` returns a subsequence of its input, so the survivors keep their order |
| `Seqs.FilterMultiplicity` | src/stores/useSessionStore.ts:65-70 | `filter` keeps every copy of an element that passes and no copy of one that fails |
| `Streaks.SessionDays` | src/stores/useProgressStore.ts:28 | the walked days are strictly descending and are exactly the days with a session; there are none only when there are no sessions |
| `Streaks.DescendingDays` | src/stores/useProgressStore.ts:28 | `[...new Set(days)].sort().reverse()` is strictly descending and holds exactly the given days |
| `Streaks.DescendingUnique` | src/stores/useProgressStore.ts:28 | two strictly descending day lists with the same elements are equal, so the walk sees the same days for any order or repetition of sessions |
| `Streaks.WalkDays` | src/stores/useProgressStore.ts:31-53 | the loop ends with current = the newest run's length and longest = the longest run's length, whatever day it starts from |
| `Streaks.CloseRun` | src/stores/useProgressStore.ts:42-45 | closing a run at a gap makes the first run closed the current streak, and makes longest the maximum of all runs so far |
| `Streaks.CalculateStreak` | src/stores/useProgressStore.ts:25-56 | `calculateStreak` returns the run-length specification `StreakOf` of the sessions, (0, 0) for none |
| `Streaks.StreakBounds` | src/stores/useProgressStore.ts:26 | no sessions give (0, 0); otherwise 1 <= current <= longest |
| `Streaks.StreakIsRunLengths` | src/stores/useProgressStore.ts:34-53 | current is the length of the newest maximal run of consecutive days; longest bounds every run and some run reaches it |
| `Streaks.StreakDependsOnlyOnDays` | src/stores/useProgressStore.ts:28 | two session lists with the same set of days have the same streak |
| `Streaks.StreakIgnoresOrder` | src/stores/useProgressStore.ts:28 | reordering the sessions does not change the streak |
| `Streaks.StreakIgnoresRepeatedDay` | src/stores/useProgressStore.ts:28 | another session on an already-logged day does not change the streak |
| `Streaks.StreakTodayAndYesterday` | src/stores/useProgressStore.ts:34-53 | sessions today and yesterday give (2, 2) |
| `Streaks.StreakAfterGap` | src/stores/useProgressStore.ts:34-53 | today, a 3-day gap, then five consecutive days give (1, 5) |
| `Streaks.StreakOfOneSession` | src/stores/useProgressStore.ts:52-53 | one session on any day, yesterday included, gives (1, 1) |
| `MasteryKeys.CatalogueEntries` | src/constants/masteryKeys.ts:3-60 | the catalogue lists thresholds 60 .. 30000 and ids mk_1 .. mk_8 in this order |
| `MasteryKeys.CatalogueThresholds` | src/constants/masteryKeys.ts:9-58 | the catalogue has eight keys whose thresholds are 60, 300, 600, 1500, 3000, 6000, 12000, 30000, strictly ascending |
| `MasteryKeys.CatalogueIdsDistinct` | src/constants/masteryKeys.ts:5-54 | the catalogue ids are pairwise distinct |
| `MasteryKeys.PhaseThresholdsOrdered` | src/constants/masteryKeys.ts:62-66 | phase thresholds are apprentice 0 < creative 30000 < master 300000 |
| `MasteryKeys.LastKeyAtCreativeThreshold` | src/constants/masteryKeys.ts:58-64 | the last key's threshold is the creative threshold and no key needs more |
| `Progress.NewlyUnlockedExact` | src/stores/useProgressStore.ts:146-151 | an id is newly unlocked exactly when a catalogue key carries it, it is not yet unlocked and its threshold is <= the total |
| `Progress.NewlyUnlockedOrdered` | src/stores/useProgressStore.ts:146-151 | the newly unlocked keys keep catalogue order, so their thresholds ascend |
| `Progress.NewlyUnlockedDistinct` | src/stores/useProgressStore.ts:144-151 | with distinct catalogue ids, no id is reported twice |
| `Progress.AfterUnlockKeepsAndGrows` | src/stores/useProgressStore.ts:144-157 | the unlocked list never loses an id and stays free of repeats; a list without repeats is extended by the new ids at its end |
| `Progress.NewlyUnlockedOnce` | src/stores/useProgressStore.ts:144-159 | a second evaluation of the grown list with the same or a smaller total unlocks nothing |
| `Progress.WithUnlocksOnce` | src/stores/useProgressStore.ts:138-163 | the record `checkUnlocks` keeps, grown or left as it was, unlocks nothing more at the same or a smaller total |
| `Progress.AllKeysUnlockedAtCreative` | src/stores/useProgressStore.ts:146-151 | from 30000 minutes on, every catalogue key is unlocked |
| `Progress.ScanCatalogue` | src/stores/useProgressStore.ts:143-154 | the loop yields exactly the newly unlocked ids in catalogue order, and the old list followed by them |
| `Progress.ZeroProgress` | src/db/database.ts:71-82 | the progress row inserted for a new task is well formed: the five scores, both streaks and the XP are 0, and no key is unlocked |
| `Progress.Assess` | src/stores/useProgressStore.ts:83-107 | every score lies in [0, 100], current <= longest, and no sessions give streak (0, 0) with focus, discipline and creativity 0 |
| `Progress.WithUnlocks` | src/stores/useProgressStore.ts:153-160 | only the unlocked list changes; it keeps every old id and stays free of repeats |
| `Progress.WithXp` | src/stores/useProgressStore.ts:134 | only totalXp changes, and it rises by exactly the amount |
| `Progress.Reassessed` | src/stores/useProgressStore.ts:118-123 | the spread `{...existing, ...}` changes only the seven assessed fields, and they take the assessment's values |
| `Progress.ReassessedKeepsTheRest` | src/stores/useProgressStore.ts:118-123 | recalculation keeps the record well formed and leaves the task id, XP and unlocked keys unchanged |
| `Progress.ProgressStore.constructor` | src/stores/useProgressStore.ts:58-60 | the store starts with no record, over the mastery-key catalogue |
| `Progress.ProgressStore.Load` | src/stores/useProgressStore.ts:62-79 | the in-memory record becomes the row the database returns, or none without a row; a well-formed row gives a valid store |
| `Progress.ProgressStore.Recalculate` | src/stores/useProgressStore.ts:81-124 | writes the streak and five scores, and replaces exactly those seven fields of the in-memory record; a missing record stays missing |
| `Progress.ProgressStore.AddXp` | src/stores/useProgressStore.ts:126-136 | writes the XP increment and raises the in-memory total by exactly `amount`; a missing record stays missing |
| `Progress.ProgressStore.CheckUnlocks` | src/stores/useProgressStore.ts:138-163 | with no record it returns [] and writes nothing; otherwise it returns the newly unlocked ids, and writes and stores the grown list only when there are some; a repeat call at the same or a smaller total then finds nothing |
| `Users.GetPhase` | src/stores/useUserStore.ts:21-25 | master iff minutes >= 300000, creative iff 30000 <= minutes < 300000, apprentice iff minutes < 30000 |
| `Users.GetPhaseMonotone` | src/stores/useUserStore.ts:21-25 | more minutes never give an earlier phase |
| `Users.PhaseBoundaries` | src/stores/useUserStore.ts:21-25 | 0 minutes is apprentice, and the phase changes exactly at the two thresholds |
| `Users.WithMinutes` | src/stores/useUserStore.ts:105-111 | the total rises by the minutes, the phase is the one the new total gives, and no other field changes |
| `Users.WithMinutesAdditive` | src/stores/useUserStore.ts:105-111 | adding minutes in two steps gives the same task as adding them at once |
| `Users.UserStore.constructor` | src/stores/useUserStore.ts:28-29 | the store starts with no user and no task |
| `Users.UserStore.CreateUser` | src/stores/useUserStore.ts:50-64 | inserts and selects a user with the given fields and onboardingComplete false |
| `Users.UserStore.SetLifeTask` | src/stores/useUserStore.ts:66-91 | fails with no change when there is no user; otherwise it inserts and selects an apprentice task with 0 minutes for that user, then inserts the all-zero progress row `ZeroProgress` for it |
| `Users.UserStore.CompleteOnboarding` | src/stores/useUserStore.ts:93-99 | marks the user onboarded; with no user it does nothing |
| `Users.UserStore.AddMinutes` | src/stores/useUserStore.ts:101-112 | with no task it does nothing; otherwise it stores `WithMinutes`, which keeps the phase invariant |
| `Sessions.TodaySessions` | src/stores/useSessionStore.ts:68-71 | exactly the sessions dated today are returned, each as often as it occurs, in list order |
| `Sessions.SumMinutes` | src/stores/useSessionStore.ts:76 | the summed durations are non-negative when every duration is |
| `Sessions.TodayMinutes` | src/stores/useSessionStore.ts:73-77 | today's minutes are non-negative when every duration is |
| `Sessions.TodayMinutesAfterAdd` | src/stores/useSessionStore.ts:73-77 | a prepended session adds its duration to its own day's minutes and nothing to any other day's |
| `Sessions.TodayMinutesNone` | src/stores/useSessionStore.ts:73-77 | a day without sessions has no sessions and 0 minutes |
| `Sessions.TodayMinutesAtMostTotal` | src/stores/useSessionStore.ts:73-77 | with non-negative durations, today's minutes lie between 0 and the whole list's minutes |
| `Sessions.SumMinutesAppend` | src/stores/useSessionStore.ts:76 | durations add up over concatenation |
| `Sessions.WithoutSession` | src/stores/useSessionStore.ts:65 | the result holds exactly the sessions without that id, each as often as before, in list order |
| `Sessions.DeleteAbsentIsNoop` | src/stores/useSessionStore.ts:65 | deleting an id no session carries leaves the list unchanged |
| `Sessions.DeleteUndoesAdd` | src/stores/useSessionStore.ts:58-65 | deleting a session just added under a fresh id restores the list |
| `Sessions.SessionStore.constructor` | src/stores/useSessionStore.ts:30 | the store starts empty |
| `Sessions.SessionStore.AddSession` | src/stores/useSessionStore.ts:42-60 | the session carries the arguments and is dated today; it is inserted and prepended |
| `Sessions.SessionStore.DeleteSession` | src/stores/useSessionStore.ts:62-66 | removes exactly the sessions with that id, keeping the rest in order |
| `Mentors.WithLevel` | src/stores/useMentorStore.ts:64 | same length and order; only relationshipLevel changes, and only on entries with the id |
| `Mentors.WithNotes` | src/stores/useMentorStore.ts:70 | same length and order; only notes change, and only on entries with the id |
| `Mentors.WithoutMentor` | src/stores/useMentorStore.ts:76 | the result holds exactly the mentors without that id, each as often as before, in list order |
| `Mentors.UpdateUnknownIdIsNoop` | src/stores/useMentorStore.ts:64-70 | an update with an unknown id leaves the list unchanged |
| `Mentors.UpdatesCompose` | src/stores/useMentorStore.ts:64-70 | the later level wins, and level and notes updates commute |
| `Mentors.DeleteUndoesAdd` | src/stores/useMentorStore.ts:57-76 | deleting a mentor just added under a fresh id restores the list |
| `Mentors.MentorStore.constructor` | src/stores/useMentorStore.ts:26 | the store starts empty |
| `Mentors.MentorStore.AddMentor` | src/stores/useMentorStore.ts:41-59 | the mentor carries the arguments and relationship level 1; it is inserted and prepended |
| `Mentors.MentorStore.UpdateRelationship` | src/stores/useMentorStore.ts:61-65 | writes the level and stores `WithLevel` |
| `Mentors.MentorStore.UpdateNotes` | src/stores/useMentorStore.ts:67-71 | writes the notes and stores `WithNotes` |
| `Mentors.MentorStore.DeleteMentor` | src/stores/useMentorStore.ts:73-77 | removes exactly the mentors with that id, keeping the rest in order |
| `Projects.XpReward` | src/stores/useProjectStore.ts:52 | the reward lies in [100, 249] |
| `Projects.XpRewardReachesAll` | src/stores/useProjectStore.ts:52 | every reward from 100 to 249 can be drawn |
| `Projects.Completed` | src/stores/useProjectStore.ts:70-74 | entries with the id become completed at `now`; all other entries and fields are unchanged |
| `Projects.WithoutProject` | src/stores/useProjectStore.ts:80 | the result holds exactly the projects without that id, each as often as before, in list order |
| `Projects.CompletedKeepsConsistent` | src/stores/useProjectStore.ts:70-74 | completion keeps isCompleted iff completedAt is set |
| `Projects.CompleteTwiceRestamps` | src/stores/useProjectStore.ts:63-74 | completing twice leaves the second timestamp, since nothing guards a completed project |
| `Projects.DeleteAbsentIsNoop` | src/stores/useProjectStore.ts:80 | deleting an unknown id leaves the list unchanged |
| `Projects.ProjectStore.constructor` | src/stores/useProjectStore.ts:24 | the store starts empty |
| `Projects.ProjectStore.AddProject` | src/stores/useProjectStore.ts:42-61 | the project is open, with completedAt unset and the drawn reward; it is inserted and prepended, keeping the completion invariant |
| `Projects.ProjectStore.CompleteProject` | src/stores/useProjectStore.ts:63-75 | writes the completion and stores `Completed`, keeping the completion invariant |
| `Projects.ProjectStore.DeleteProject` | src/stores/useProjectStore.ts:77-81 | removes exactly the projects with that id, keeping the completion invariant |
| `LogSession.SessionXp` | app/log-session.tsx:59-64 | the reward for a non-negative duration is non-negative |
| `LogSession.SessionXpIsNearest` | app/log-session.tsx:59-64 | the XP is the nearest integer to 2 * duration * quality / 5 with halves up, and it grows with the duration |
| `LogSession.SessionXpOnPicker` | app/log-session.tsx:30 | for every duration the screen offers, the XP is exact and lies in [6, 240] |
| `LogSession.DefaultSessionXp` | app/log-session.tsx:38-40 | the defaults 45 min at quality 3 earn 54, and 72 at quality 4; the extremes earn 6 and 240 |
| `LogSession.MaxLevel` | app/log-session.tsx:54 | 0 with no mentors; otherwise the largest relationship level, which is in 1..5 |
| `LogSession.SocialFromFewMentors` | app/log-session.tsx:54-55 | no mentors give social intelligence 0, and one new mentor gives 20 |
| `LogSession.SocialFromNineMentors` | app/log-session.tsx:54-55 | nine or more mentors give social intelligence 100 |
| `LogSession.Trim` | app/log-session.tsx:49 | trimmed notes are no longer than the input and neither start nor end with white space |
| `LogSession.TrimProperties` | app/log-session.tsx:49 | trimmed notes are the input without leading and trailing white space, and trimming is idempotent |
| `LogSession.AfterSave` | app/log-session.tsx:55-64 | a save keeps a record present exactly when it was present and keeps it well formed; XP rises by exactly the award |
| `LogSession.AfterSaveStreak` | app/log-session.tsx:55 | the saved record holds the streak of the list it was recalculated from |
| `LogSession.RecordProgress` | app/log-session.tsx:55-65 | runs recalculate, checkUnlocks, then addXp, and awards the XP whether or not a key unlocked |
| `LogSession.RecordSession` | app/log-session.tsx:49-50 | prepends the session with trimmed notes, then adds its minutes to the task, in that order |
| `LogSession.HandleSaveAsWritten` | app/log-session.tsx:44-71 | with no task it does nothing; otherwise the five steps run in order, with total = old total + duration, which is what addMinutes stores, and the scores come from the list captured before the save; it returns the newly unlocked ids that decide the alert, [] without a progress record; the task's phase invariant and, for a non-negative duration, a valid progress record are kept |
| `LogSession.StaleSessionsCounterexample` | app/log-session.tsx:34-55 | saving the first session recalculates from the empty list, storing streak (0, 0) and discipline 0, while the list holding it gives (1, 1) and 3 |
| `LogSession.StaleFirstSave` | app/log-session.tsx:34-55 | running the as-written handler on an empty session list leaves a record with streak (0, 0), while the store, holding the saved session, has streak (1, 1) |
| `LogSession.HandleSave` | app/log-session.tsx:44-71 | the same sequence, but the scores come from the list that holds the new session; it returns the same newly unlocked ids and keeps the same invariants |

## Left out

- SQLite persistence is not modelled. Each write becomes an entry in a ghost log (`Db.Database.log`), which nothing reads back. The `load` methods of the user, session, mentor and project stores are left out.
- The progress store's `load` reads no database: `Progress.ProgressStore.Load` takes the returned row as a parameter. It is the only way the in-memory progress record becomes present, so a caller supplies the row, for example the `ZeroProgress` row that `SetLifeTask` inserts.
- A failing storage call is not modelled. Every write is assumed to succeed, so the partial-failure states of the save sequence and its `try`/`finally` are not represented.
- The JSON encoding of the unlocked key ids is not modelled. The field is a sequence of ids.
- JavaScript `Date` handling is replaced by integer day numbers and an explicit `today`. This covers ISO strings, `setDate`, time zones and the lexicographic sort of ISO dates. Creation timestamps are opaque string parameters.
- `generateId` is replaced by an id parameter. Ids are not proved fresh; the lemmas that need a fresh id take it as a precondition.
- `Math.random()` in the project reward is a real parameter in [0, 1).
- Floating-point rounding is not modelled. `Math.round` of the floating quotient is exact rational round-half-up, so possible mis-rounding of a float at a .5 tie is out of scope.
- zustand's `create`/`set`/`get`, the async plumbing and the `isLoading` and `loading` flags are not modelled. The stores are classes with sequential methods.
- Screens, components, haptics, alerts and navigation are not modelled. `handleSave`'s result is the list of newly unlocked ids that decides whether the alert shows.
- The title, quote and author of each mastery key are display text, so a key is modelled by its id and threshold only.
- `DOMAIN_LABELS` and `HISTORICAL_MENTORS` in src/constants/masteryKeys.ts are display data only, so they are not modelled.

## Findings

| source | as written | input that shows it | evidently intended | confidence | as-written member | corrected member |
|---|---|---|---|---|---|---|
| app/log-session.tsx:52 | `recalculate` gets `sessions` as the screen rendered it, before `addSession` ran, so the session just saved is missing from the streak and the scores | the first session ever saved: the list passed is empty, so the stored streak is (0, 0) and discipline 0 instead of (1, 1) and 3 | recalculate from the full session history, the new session included | medium, not executed | `LogSession.StaleFirstSave` | `LogSession.HandleSave` |
