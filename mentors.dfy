/** The mentor store (src/stores/useMentorStore.ts): the task's mentors,
    newest first, whose count and best relationship level feed the social
    intelligence score. */
module Mentors {
  import opened Types
  import opened Seqs
  import opened Db

  /** `mentors.map((m) => m.id === id ? { ...m, relationshipLevel: level } : m)` */
  function WithLevel(mentors: seq<Mentor>, id: string, level: RelationshipLevel): (r: seq<Mentor>)
    ensures |r| == |mentors|
    ensures forall i :: 0 <= i < |r| ==> r[i].(relationshipLevel := mentors[i].relationshipLevel) == mentors[i]
    ensures forall i :: 0 <= i < |r| ==>
      r[i].relationshipLevel == if mentors[i].id == id then level else mentors[i].relationshipLevel
  {
    seq(|mentors|, i requires 0 <= i < |mentors| =>
      if mentors[i].id == id then mentors[i].(relationshipLevel := level) else mentors[i])
  }

  /** `mentors.map((m) => m.id === id ? { ...m, notes } : m)` */
  function WithNotes(mentors: seq<Mentor>, id: string, notes: string): (r: seq<Mentor>)
    ensures |r| == |mentors|
    ensures forall i :: 0 <= i < |r| ==> r[i].(notes := mentors[i].notes) == mentors[i]
    ensures forall i :: 0 <= i < |r| ==> r[i].notes == if mentors[i].id == id then notes else mentors[i].notes
  {
    seq(|mentors|, i requires 0 <= i < |mentors| =>
      if mentors[i].id == id then mentors[i].(notes := notes) else mentors[i])
  }

  /** `mentors.filter((m) => m.id !== id)` */
  function WithoutMentor(mentors: seq<Mentor>, id: string): (r: seq<Mentor>)
    ensures |r| <= |mentors|
    ensures forall m :: m in r <==> m in mentors && m.id != id
    ensures SubsequenceOf(r, mentors)
    ensures forall x :: multiset(r)[x] == if x.id != id then multiset(mentors)[x] else 0
  {
    FilterIsSubsequence(mentors, (m: Mentor) => m.id != id);
    FilterMultiplicity(mentors, (m: Mentor) => m.id != id);
    Filter(mentors, (m: Mentor) => m.id != id)
  }

  /** Updating an id no mentor carries changes nothing. */
  lemma UpdateUnknownIdIsNoop(mentors: seq<Mentor>, id: string, level: RelationshipLevel, notes: string)
    requires forall i :: 0 <= i < |mentors| ==> mentors[i].id != id
    ensures WithLevel(mentors, id, level) == mentors
    ensures WithNotes(mentors, id, notes) == mentors
  {
  }

  /** Setting a level twice leaves the second one; setting the level and the
      notes can be done in either order. */
  lemma UpdatesCompose(mentors: seq<Mentor>, id: string, id2: string,
                       first: RelationshipLevel, second: RelationshipLevel, notes: string)
    ensures WithLevel(WithLevel(mentors, id, first), id, second) == WithLevel(mentors, id, second)
    ensures WithNotes(WithLevel(mentors, id, first), id2, notes) == WithLevel(WithNotes(mentors, id2, notes), id, first)
  {
  }

  /** Deleting a mentor just added under a fresh id restores the list. */
  lemma DeleteUndoesAdd(m: Mentor, mentors: seq<Mentor>)
    requires forall i :: 0 <= i < |mentors| ==> mentors[i].id != m.id
    ensures WithoutMentor([m] + mentors, m.id) == mentors
  {
    var keep := (x: Mentor) => x.id != m.id;
    FilterCons(m, mentors, keep);
    FilterKeepsAll(mentors, keep);
  }

  class MentorStore {
    var mentors: seq<Mentor>

    /** The store starts empty. */
    constructor ()
      ensures mentors == []
    {
      mentors := [];
    }

    /** `addMentor`: records a mentor at relationship level 1 and puts it first. */
    method AddMentor(db: Database, lifeTaskId: string, name: string, domain: string,
                     isHistorical: bool, notes: string, id: string, createdAt: string)
      returns (mentor: Mentor)
      modifies this, db
      ensures mentor == Mentor(id, lifeTaskId, name, domain, isHistorical, notes, 1, createdAt)
      ensures mentors == [mentor] + old(mentors)
      ensures db.log == old(db.log) + [InsertMentor(mentor)]
    {
      mentor := Mentor(id, lifeTaskId, name, domain, isHistorical, notes, 1, createdAt);
      db.log := db.log + [InsertMentor(mentor)];
      mentors := [mentor] + mentors;
    }

    /** `updateRelationship`: sets the level of every mentor with that id. */
    method UpdateRelationship(db: Database, id: string, level: RelationshipLevel)
      modifies this, db
      ensures mentors == WithLevel(old(mentors), id, level)
      ensures db.log == old(db.log) + [UpdateMentorLevel(id, level)]
    {
      db.log := db.log + [UpdateMentorLevel(id, level)];
      mentors := WithLevel(mentors, id, level);
    }

    /** `updateNotes`: sets the notes of every mentor with that id. */
    method UpdateNotes(db: Database, id: string, notes: string)
      modifies this, db
      ensures mentors == WithNotes(old(mentors), id, notes)
      ensures db.log == old(db.log) + [UpdateMentorNotes(id, notes)]
    {
      db.log := db.log + [UpdateMentorNotes(id, notes)];
      mentors := WithNotes(mentors, id, notes);
    }

    /** `deleteMentor`: removes every mentor with that id. */
    method DeleteMentor(db: Database, id: string)
      modifies this, db
      ensures mentors == WithoutMentor(old(mentors), id)
      ensures db.log == old(db.log) + [Write.DeleteMentor(id)]
    {
      db.log := db.log + [Write.DeleteMentor(id)];
      mentors := WithoutMentor(mentors, id);
    }
  }
}
