/** The session store (src/stores/useSessionStore.ts): the in-memory list of
    the task's practice sessions, newest first, and the "today" queries the
    dashboard reads. The calendar day `today` is a parameter. */
module Sessions {
  import opened Types
  import opened Seqs
  import opened Db

  /** `getTodaySessions`: the sessions dated `today`, in list order. */
  function TodaySessions(sessions: seq<PracticeSession>, today: Day): (r: seq<PracticeSession>)
    ensures forall s :: s in r <==> s in sessions && s.date == today
    ensures SubsequenceOf(r, sessions)
    ensures forall x :: multiset(r)[x] == if x.date == today then multiset(sessions)[x] else 0
  {
    FilterIsSubsequence(sessions, (s: PracticeSession) => s.date == today);
    FilterMultiplicity(sessions, (s: PracticeSession) => s.date == today);
    Filter(sessions, (s: PracticeSession) => s.date == today)
  }

  /** The sum of the sessions' durations, as `reduce((sum, s) => sum + s.durationMinutes, 0)`. */
  function SumMinutes(sessions: seq<PracticeSession>): (r: int)
    ensures (forall i :: 0 <= i < |sessions| ==> sessions[i].durationMinutes >= 0) ==> r >= 0
  {
    if sessions == [] then 0 else sessions[0].durationMinutes + SumMinutes(sessions[1..])
  }

  /** `getTodayMinutes`: the minutes practised today. */
  function TodayMinutes(sessions: seq<PracticeSession>, today: Day): (r: int)
    ensures (forall i :: 0 <= i < |sessions| ==> sessions[i].durationMinutes >= 0) ==> r >= 0
  {
    var mine := TodaySessions(sessions, today);
    assert (forall i :: 0 <= i < |sessions| ==> sessions[i].durationMinutes >= 0) ==>
           forall i :: 0 <= i < |mine| ==> mine[i].durationMinutes >= 0 by {
      forall i | 0 <= i < |mine| ensures mine[i] in sessions {
        assert mine[i] in mine;
      }
    }
    SumMinutes(mine)
  }

  /** `sessions.filter((s) => s.id !== id)` */
  function WithoutSession(sessions: seq<PracticeSession>, id: string): (r: seq<PracticeSession>)
    ensures |r| <= |sessions|
    ensures forall s :: s in r <==> s in sessions && s.id != id
    ensures SubsequenceOf(r, sessions)
    ensures forall x :: multiset(r)[x] == if x.id != id then multiset(sessions)[x] else 0
  {
    FilterIsSubsequence(sessions, (s: PracticeSession) => s.id != id);
    FilterMultiplicity(sessions, (s: PracticeSession) => s.id != id);
    Filter(sessions, (s: PracticeSession) => s.id != id)
  }

  /** Durations add up over concatenation. */
  lemma {:induction false} SumMinutesAppend(a: seq<PracticeSession>, b: seq<PracticeSession>)
    ensures SumMinutes(a + b) == SumMinutes(a) + SumMinutes(b)
  {
    if a == [] {
      assert a + b == b;
    } else {
      assert (a + b)[1..] == a[1..] + b;
      SumMinutesAppend(a[1..], b);
    }
  }

  /** A session prepended to the list counts towards its own day's minutes
      and towards no other day's. */
  lemma TodayMinutesAfterAdd(s: PracticeSession, sessions: seq<PracticeSession>, today: Day)
    ensures TodayMinutes([s] + sessions, today)
         == (if s.date == today then s.durationMinutes else 0) + TodayMinutes(sessions, today)
  {
    var keep := (x: PracticeSession) => x.date == today;
    FilterCons(s, sessions, keep);
    if s.date == today {
      assert ([s] + TodaySessions(sessions, today))[1..] == TodaySessions(sessions, today);
    }
  }

  /** A day without sessions has no minutes. */
  lemma TodayMinutesNone(sessions: seq<PracticeSession>, today: Day)
    requires forall i :: 0 <= i < |sessions| ==> sessions[i].date != today
    ensures TodaySessions(sessions, today) == [] && TodayMinutes(sessions, today) == 0
  {
    FilterKeepsNone(sessions, (x: PracticeSession) => x.date == today);
  }

  /** With non-negative durations, today's minutes lie between 0 and the
      minutes of the whole list. */
  lemma {:induction false} TodayMinutesAtMostTotal(sessions: seq<PracticeSession>, today: Day)
    requires forall i :: 0 <= i < |sessions| ==> sessions[i].durationMinutes >= 0
    ensures 0 <= TodayMinutes(sessions, today) <= SumMinutes(sessions)
  {
    if sessions != [] {
      var s, rest := sessions[0], sessions[1..];
      assert sessions == [s] + rest;
      TodayMinutesAtMostTotal(rest, today);
      TodayMinutesAfterAdd(s, rest, today);
    }
  }

  /** Deleting an id no session carries leaves the list as it is. */
  lemma DeleteAbsentIsNoop(sessions: seq<PracticeSession>, id: string)
    requires forall i :: 0 <= i < |sessions| ==> sessions[i].id != id
    ensures WithoutSession(sessions, id) == sessions
  {
    FilterKeepsAll(sessions, (s: PracticeSession) => s.id != id);
  }

  /** Deleting a session just added under a fresh id restores the list. */
  lemma DeleteUndoesAdd(s: PracticeSession, sessions: seq<PracticeSession>)
    requires forall i :: 0 <= i < |sessions| ==> sessions[i].id != s.id
    ensures WithoutSession([s] + sessions, s.id) == sessions
  {
    FilterCons(s, sessions, (x: PracticeSession) => x.id != s.id);
    DeleteAbsentIsNoop(sessions, s.id);
  }

  class SessionStore {
    var sessions: seq<PracticeSession>

    /** The store starts empty. */
    constructor ()
      ensures sessions == []
    {
      sessions := [];
    }

    /** `addSession`: records a session dated today and puts it first in the list. */
    method AddSession(db: Database, lifeTaskId: string, durationMinutes: int, quality: Quality,
                      sessionType: SessionType, notes: string, id: string, today: Day, createdAt: string)
      returns (session: PracticeSession)
      modifies this, db
      ensures session == PracticeSession(id, lifeTaskId, today, durationMinutes, quality, sessionType, notes, createdAt)
      ensures sessions == [session] + old(sessions)
      ensures db.log == old(db.log) + [InsertSession(session)]
    {
      session := PracticeSession(id, lifeTaskId, today, durationMinutes, quality, sessionType, notes, createdAt);
      db.log := db.log + [InsertSession(session)];
      sessions := [session] + sessions;
    }

    /** `deleteSession`: removes every session with that id. */
    method DeleteSession(db: Database, id: string)
      modifies this, db
      ensures sessions == WithoutSession(old(sessions), id)
      ensures db.log == old(db.log) + [Write.DeleteSession(id)]
    {
      db.log := db.log + [Write.DeleteSession(id)];
      sessions := WithoutSession(sessions, id);
    }
  }
}
