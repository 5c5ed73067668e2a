/** The static catalogue of mastery keys and the phase thresholds
    (src/constants/masteryKeys.ts). */
module MasteryKeys {
  import opened Types

  /** The catalogue, in display order. Each key's title, quote and author
      are display text only and are not modelled. */
  const MASTERY_KEYS: seq<MasteryKey> := [
    MasteryKey("mk_1", 60),
    MasteryKey("mk_2", 300),
    MasteryKey("mk_3", 600),
    MasteryKey("mk_4", 1500),
    MasteryKey("mk_5", 3000),
    MasteryKey("mk_6", 6000),
    MasteryKey("mk_7", 12000),
    MasteryKey("mk_8", 30000)
  ]

  /** Minutes at which each phase begins: 0, 500 hours and 5000 hours. */
  const APPRENTICE_THRESHOLD: int := 0
  const CREATIVE_THRESHOLD: int := 500 * 60
  const MASTER_THRESHOLD: int := 5000 * 60

  /** Minute thresholds strictly ascending along a key list. */
  predicate ThresholdsAscending(keys: seq<MasteryKey>) {
    forall i, j :: 0 <= i < j < |keys| ==> keys[i].unlockedAtMinutes < keys[j].unlockedAtMinutes
  }

  /** No two keys of a list share an id. */
  predicate DistinctIds(keys: seq<MasteryKey>) {
    forall i, j :: 0 <= i < j < |keys| ==> keys[i].id != keys[j].id
  }

  /** The thresholds of a key list, in list order. */
  function Thresholds(keys: seq<MasteryKey>): (r: seq<int>)
    ensures |r| == |keys| && forall i :: 0 <= i < |keys| ==> r[i] == keys[i].unlockedAtMinutes
  {
    seq(|keys|, i requires 0 <= i < |keys| => keys[i].unlockedAtMinutes)
  }

  /** `keys.map((k) => k.id)`: the ids of a key list, in list order. */
  function KeyIds(keys: seq<MasteryKey>): (r: seq<string>)
    ensures |r| == |keys| && forall i :: 0 <= i < |keys| ==> r[i] == keys[i].id
  {
    seq(|keys|, i requires 0 <= i < |keys| => keys[i].id)
  }

  /** The thresholds the catalogue lists. */
  const CATALOGUE_THRESHOLDS: seq<int> := [60, 300, 600, 1500, 3000, 6000, 12000, 30000]

  /** The ids the catalogue lists. */
  const CATALOGUE_IDS: seq<string> := ["mk_1", "mk_2", "mk_3", "mk_4", "mk_5", "mk_6", "mk_7", "mk_8"]

  /** The catalogue's thresholds and ids, entry by entry. */
  lemma CatalogueEntries()
    ensures Thresholds(MASTERY_KEYS) == CATALOGUE_THRESHOLDS
    ensures KeyIds(MASTERY_KEYS) == CATALOGUE_IDS
  {
  }

  /** Any key list with the catalogue's thresholds has them strictly ascending,
      and every one of them is positive and at most the creative threshold. */
  lemma CatalogueThresholdsShape(keys: seq<MasteryKey>)
    requires Thresholds(keys) == CATALOGUE_THRESHOLDS
    ensures ThresholdsAscending(keys)
    ensures keys[|keys| - 1].unlockedAtMinutes == CREATIVE_THRESHOLD
    ensures forall k :: k in keys ==> 0 < k.unlockedAtMinutes <= CREATIVE_THRESHOLD
  {
    var t := Thresholds(keys);
    assert forall i :: 0 <= i < |keys| ==> keys[i].unlockedAtMinutes == t[i];
    forall k | k in keys ensures 0 < k.unlockedAtMinutes <= CREATIVE_THRESHOLD {
      var i :| 0 <= i < |keys| && keys[i] == k;
      assert t[i] == k.unlockedAtMinutes;
    }
  }

  /** Any key list with the catalogue's ids has them pairwise distinct. */
  lemma CatalogueIdsShape(keys: seq<MasteryKey>)
    requires KeyIds(keys) == CATALOGUE_IDS
    ensures DistinctIds(keys)
  {
    var ids := KeyIds(keys);
    forall i, j | 0 <= i < j < |keys| ensures keys[i].id != keys[j].id {
      // the ids differ in their last character
      assert ids[i][3] != ids[j][3];
    }
  }

  /** The catalogue has eight keys, with these thresholds, strictly ascending. */
  lemma CatalogueThresholds()
    ensures |MASTERY_KEYS| == 8
    ensures Thresholds(MASTERY_KEYS) == [60, 300, 600, 1500, 3000, 6000, 12000, 30000]
    ensures ThresholdsAscending(MASTERY_KEYS)
  {
    CatalogueEntries();
    CatalogueThresholdsShape(MASTERY_KEYS);
  }

  /** The catalogue ids mk_1 .. mk_8 are pairwise distinct. */
  lemma CatalogueIdsDistinct()
    ensures KeyIds(MASTERY_KEYS) == ["mk_1", "mk_2", "mk_3", "mk_4", "mk_5", "mk_6", "mk_7", "mk_8"]
    ensures DistinctIds(MASTERY_KEYS)
  {
    CatalogueEntries();
    CatalogueIdsShape(MASTERY_KEYS);
  }

  /** The phase thresholds are ordered apprentice < creative < master. */
  lemma PhaseThresholdsOrdered()
    ensures APPRENTICE_THRESHOLD == 0 < CREATIVE_THRESHOLD == 30000 < MASTER_THRESHOLD == 300000
  {
  }

  /** The last key unlocks exactly at the creative threshold and no key needs
      more, so every key is reachable by the start of the creative phase. */
  lemma LastKeyAtCreativeThreshold()
    ensures MASTERY_KEYS[|MASTERY_KEYS| - 1].unlockedAtMinutes == CREATIVE_THRESHOLD
    ensures forall k :: k in MASTERY_KEYS ==> 0 < k.unlockedAtMinutes <= CREATIVE_THRESHOLD
  {
    CatalogueEntries();
    CatalogueThresholdsShape(MASTERY_KEYS);
  }
}
