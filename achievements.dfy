/** One-shot achievements (`utils/AchievementManager.js`): three flags that
    only ever go from locked to unlocked, a check that reports the ones it
    unlocked, and their persistence as a map from id to flag. */
module Achievements {
  import opened Common

  const FirstFlight: string := "firstFlight"
  const HighFlyer: string := "highFlyer"
  const MasterPilot: string := "masterPilot"
  /** The achievements in declaration order, which is the report order. */
  const AllIds: seq<string> := [FirstFlight, HighFlyer, MasterPilot]

  const HighFlyerScore: int := 10
  const MasterPilotScore: int := 50

  /** A flag table that knows exactly the three achievements. */
  predicate WellFormed(unlocked: map<string, bool>) {
    unlocked.Keys == {FirstFlight, HighFlyer, MasterPilot}
  }

  /** The flags after `checkAchievements(score)`: the first flight always
      unlocks, the other two once their score is reached. */
  function AfterCheck(unlocked: map<string, bool>, score: int): (after: map<string, bool>)
    requires WellFormed(unlocked)
    ensures WellFormed(after)
    ensures after[FirstFlight]
  {
    var a := unlocked[FirstFlight := true];
    var b := if score >= HighFlyerScore then a[HighFlyer := true] else a;
    if score >= MasterPilotScore then b[MasterPilot := true] else b
  }

  /** Whether the check turned this flag on. */
  predicate Flipped(unlocked: map<string, bool>, score: int, id: string)
    requires WellFormed(unlocked)
  {
    id in unlocked && !unlocked[id] && AfterCheck(unlocked, score)[id]
  }

  /** The ids of `ids` the check turned on, in the order of `ids`. */
  function FlippedAmong(unlocked: map<string, bool>, score: int, ids: seq<string>): (r: seq<string>)
    requires WellFormed(unlocked)
    ensures forall id :: id in r <==> id in ids && Flipped(unlocked, score, id)
    ensures |r| <= |ids|
  {
    if ids == [] then []
    else if Flipped(unlocked, score, ids[0]) then [ids[0]] + FlippedAmong(unlocked, score, ids[1..])
    else FlippedAmong(unlocked, score, ids[1..])
  }

  /** The list `checkAchievements` returns: the newly unlocked ids, first
      flight before high flyer before master pilot. */
  function NewlyUnlocked(unlocked: map<string, bool>, score: int): (r: seq<string>)
    requires WellFormed(unlocked)
  {
    (if !unlocked[FirstFlight] then [FirstFlight] else [])
    + (if score >= HighFlyerScore && !unlocked[HighFlyer] then [HighFlyer] else [])
    + (if score >= MasterPilotScore && !unlocked[MasterPilot] then [MasterPilot] else [])
  }

  /** The returned list is exactly the flags that flipped, in table order. */
  lemma NewlyUnlockedIsFlipped(unlocked: map<string, bool>, score: int)
    requires WellFormed(unlocked)
    ensures NewlyUnlocked(unlocked, score) == FlippedAmong(unlocked, score, AllIds)
  {
    var after := AfterCheck(unlocked, score);
    assert Flipped(unlocked, score, FirstFlight) <==> !unlocked[FirstFlight];
    assert Flipped(unlocked, score, HighFlyer) <==> score >= HighFlyerScore && !unlocked[HighFlyer];
    assert Flipped(unlocked, score, MasterPilot) <==> score >= MasterPilotScore && !unlocked[MasterPilot];
    var tail1, tail2 := AllIds[1..], AllIds[1..][1..];
    assert tail1 == [HighFlyer, MasterPilot] && tail2 == [MasterPilot] && tail2[1..] == [];
    assert FlippedAmong(unlocked, score, tail2)
      == (if Flipped(unlocked, score, MasterPilot) then [MasterPilot] else []);
    assert FlippedAmong(unlocked, score, tail1)
      == (if Flipped(unlocked, score, HighFlyer) then [HighFlyer] else []) + FlippedAmong(unlocked, score, tail2);
    assert FlippedAmong(unlocked, score, AllIds)
      == (if Flipped(unlocked, score, FirstFlight) then [FirstFlight] else []) + FlippedAmong(unlocked, score, tail1);
  }

  /** The list names no achievement twice, and names only flags that flipped. */
  lemma NewlyUnlockedFacts(unlocked: map<string, bool>, score: int)
    requires WellFormed(unlocked)
    ensures NoDuplicates(NewlyUnlocked(unlocked, score))
    ensures forall id :: id in NewlyUnlocked(unlocked, score) ==> Flipped(unlocked, score, id)
  {
    NewlyUnlockedIsFlipped(unlocked, score);
  }

  /** Flags never go back: an unlocked achievement stays unlocked, and a
      flag that changes was locked and is now unlocked. */
  lemma OnlyLockedToUnlocked(unlocked: map<string, bool>, score: int, id: string)
    requires WellFormed(unlocked) && id in unlocked
    ensures unlocked[id] ==> AfterCheck(unlocked, score)[id]
    ensures AfterCheck(unlocked, score)[id] != unlocked[id] ==> Flipped(unlocked, score, id)
  {
  }

  /** High flyer and master pilot unlock exactly when locked and their
      score is reached. */
  lemma ScoreUnlocks(unlocked: map<string, bool>, score: int)
    requires WellFormed(unlocked)
    ensures Flipped(unlocked, score, HighFlyer) <==> !unlocked[HighFlyer] && score >= HighFlyerScore
    ensures Flipped(unlocked, score, MasterPilot) <==> !unlocked[MasterPilot] && score >= MasterPilotScore
  {
  }

  /** The flags and every id reported over a sequence of checks. */
  function Run(unlocked: map<string, bool>, scores: seq<int>): (r: (map<string, bool>, seq<string>))
    requires WellFormed(unlocked)
    ensures WellFormed(r.0)
    decreases |scores|
  {
    if scores == [] then (unlocked, [])
    else
      var rest := Run(AfterCheck(unlocked, scores[0]), scores[1..]);
      (rest.0, NewlyUnlocked(unlocked, scores[0]) + rest.1)
  }

  predicate NoDuplicates(s: seq<string>) {
    forall i, j :: 0 <= i < j < |s| ==> s[i] != s[j]
  }

  lemma ConcatNoDuplicates(a: seq<string>, b: seq<string>)
    requires NoDuplicates(a) && NoDuplicates(b)
    requires forall x :: x in a ==> x !in b
    ensures NoDuplicates(a + b)
  {
    var all := a + b;
    forall i, j | 0 <= i < j < |all|
      ensures all[i] != all[j]
    {
      if j < |a| {
        assert all[i] == a[i] && all[j] == a[j];
      } else if i < |a| {
        assert all[i] == a[i] && all[j] == b[j - |a|];
        assert a[i] in a;
      } else {
        assert all[i] == b[i - |a|] && all[j] == b[j - |a|];
      }
    }
  }

  /** Across any number of checks each achievement is reported at most once,
      only if it was locked at the start, and is unlocked at the end. */
  lemma {:induction false} ReportedAtMostOnce(unlocked: map<string, bool>, scores: seq<int>)
    requires WellFormed(unlocked)
    ensures NoDuplicates(Run(unlocked, scores).1)
    ensures forall id :: id in Run(unlocked, scores).1 ==>
      id in unlocked && !unlocked[id] && Run(unlocked, scores).0[id]
    decreases |scores|
  {
    if scores != [] {
      var after := AfterCheck(unlocked, scores[0]);
      var now := NewlyUnlocked(unlocked, scores[0]);
      var rest := Run(after, scores[1..]);
      assert Run(unlocked, scores) == (rest.0, now + rest.1);
      ReportedAtMostOnce(after, scores[1..]);
      NewlyUnlockedFacts(unlocked, scores[0]);
      RunKeepsUnlocked(after, scores[1..]);
      forall id | id in now
        ensures id !in rest.1 && rest.0[id]
      {
        assert Flipped(unlocked, scores[0], id);
      }
      forall id | id in rest.1
        ensures id in unlocked && !unlocked[id]
      {
        OnlyLockedToUnlocked(unlocked, scores[0], id);
      }
      ConcatNoDuplicates(now, rest.1);
    }
  }

  /** Further checks keep every unlocked flag unlocked. */
  lemma {:induction false} RunKeepsUnlocked(unlocked: map<string, bool>, scores: seq<int>)
    requires WellFormed(unlocked)
    ensures forall id :: id in unlocked && unlocked[id] ==> Run(unlocked, scores).0[id]
    decreases |scores|
  {
    if scores != [] {
      var after := AfterCheck(unlocked, scores[0]);
      RunKeepsUnlocked(after, scores[1..]);
      forall id | id in unlocked && unlocked[id]
        ensures after[id]
      {
        OnlyLockedToUnlocked(unlocked, scores[0], id);
      }
    }
  }

  /** `loadProgress` on a stored map: every stored id the table knows takes
      its stored flag; unknown ids are ignored. */
  function Loaded(unlocked: map<string, bool>, saved: map<string, bool>): (r: map<string, bool>)
    ensures r.Keys == unlocked.Keys
    ensures forall id :: id in unlocked && id !in saved ==> r[id] == unlocked[id]
    ensures forall id :: id in unlocked && id in saved ==> r[id] == saved[id]
  {
    map id | id in unlocked :: if id in saved then saved[id] else unlocked[id]
  }

  class AchievementManager {
    /** The `unlocked` flag of each achievement, by id. */
    var unlocked: map<string, bool>
    /** The stored copy under the `achievements` key; `None` when nothing
        is stored. */
    var storage: Option<map<string, bool>>

    predicate Valid()
      reads this
    {
      WellFormed(unlocked)
    }

    /** All locked, then whatever is stored is loaded. */
    constructor(stored: Option<map<string, bool>>)
      ensures Valid() && storage == stored
      ensures unlocked == if stored.Some?
        then Loaded(map[FirstFlight := false, HighFlyer := false, MasterPilot := false], stored.value)
        else map[FirstFlight := false, HighFlyer := false, MasterPilot := false]
    {
      unlocked := map[FirstFlight := false, HighFlyer := false, MasterPilot := false];
      storage := stored;
      new;
      LoadProgress();
    }

    /** `loadProgress`: walks the stored ids one by one. */
    method LoadProgress()
      requires Valid()
      modifies this
      ensures Valid() && storage == old(storage)
      ensures unlocked == if storage.Some? then Loaded(old(unlocked), storage.value) else old(unlocked)
    {
      if storage.Some? {
        var saved := storage.value;
        var pending := saved.Keys;
        ghost var start := unlocked;
        while pending != {}
          invariant pending <= saved.Keys && storage == old(storage)
          invariant unlocked.Keys == start.Keys
          invariant forall id :: id in start && (id !in saved || id in pending) ==> unlocked[id] == start[id]
          invariant forall id :: id in start && id in saved && id !in pending ==> unlocked[id] == saved[id]
          decreases pending
        {
          var id :| id in pending;
          if id in unlocked {
            unlocked := unlocked[id := saved[id]];
          }
          pending := pending - {id};
        }
      }
    }

    /** `saveProgress`: stores every flag. */
    method SaveProgress()
      modifies this
      ensures storage == Some(unlocked) && unlocked == old(unlocked)
    {
      storage := Some(unlocked);
    }

    /** `checkAchievements(score)`: unlocks what the score earns, reports the
        newly unlocked ids in table order, and stores the flags only when
        something was unlocked. */
    method CheckAchievements(score: int) returns (newUnlocks: seq<string>)
      requires Valid()
      modifies this
      ensures Valid()
      ensures unlocked == AfterCheck(old(unlocked), score)
      ensures newUnlocks == NewlyUnlocked(old(unlocked), score)
      ensures storage == if |newUnlocks| > 0 then Some(unlocked) else old(storage)
    {
      newUnlocks := [];
      if !unlocked[FirstFlight] {
        unlocked := unlocked[FirstFlight := true];
        newUnlocks := newUnlocks + [FirstFlight];
      }
      if score >= HighFlyerScore && !unlocked[HighFlyer] {
        unlocked := unlocked[HighFlyer := true];
        newUnlocks := newUnlocks + [HighFlyer];
      }
      if score >= MasterPilotScore && !unlocked[MasterPilot] {
        unlocked := unlocked[MasterPilot := true];
        newUnlocks := newUnlocks + [MasterPilot];
      }
      if |newUnlocks| > 0 {
        SaveProgress();
      }
    }
  }
}
