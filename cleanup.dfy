/**
 * The housekeeping script: four deletion passes over the stories, rounds and
 * API cost logs, run in a fixed order, with counters of what was removed.
 * The collections are in memory and the clock is a parameter.
 */
module Cleanup {
  import opened StoryTypes
  import Models

  /** Milliseconds in a day. */
  const DayMs: int := 24 * 60 * 60 * 1000

  /** The instant `days` days before `now`. */
  function Cutoff(now: int, days: int): int {
    now - days * DayMs
  }

  /** A story with the given status whose last update is before the cutoff. */
  predicate Stale(s: Story, status: StoryStatus, cutoff: int) {
    s.status == status && s.updatedAt < cutoff
  }

  /** The stories a pass keeps, in order. */
  function KeptStories(ss: seq<Story>, status: StoryStatus, cutoff: int): seq<Story> {
    KeptAmong(ss, |ss|, status, cutoff)
  }

  /** The stories among the first `n` that a pass keeps. */
  function KeptAmong(ss: seq<Story>, n: nat, status: StoryStatus, cutoff: int): seq<Story>
    requires n <= |ss|
  {
    if n == 0 then []
    else if Stale(ss[n - 1], status, cutoff) then KeptAmong(ss, n - 1, status, cutoff)
    else KeptAmong(ss, n - 1, status, cutoff) + [ss[n - 1]]
  }

  /** The ids of the stories a pass deletes. */
  function StaleIds(ss: seq<Story>, status: StoryStatus, cutoff: int): set<string> {
    StaleIdsAmong(ss, |ss|, status, cutoff)
  }

  /** The ids of the stories among the first `n` that a pass deletes. */
  function StaleIdsAmong(ss: seq<Story>, n: nat, status: StoryStatus, cutoff: int): set<string>
    requires n <= |ss|
  {
    if n == 0 then {}
    else if Stale(ss[n - 1], status, cutoff) then StaleIdsAmong(ss, n - 1, status, cutoff) + {ss[n - 1].storyId}
    else StaleIdsAmong(ss, n - 1, status, cutoff)
  }

  /** The rounds that belong to none of `ids`, in order. */
  function RoundsWithout(rs: seq<Round>, ids: set<string>): seq<Round> {
    if rs == [] then []
    else
      var last := rs[|rs| - 1];
      if last.story in ids then RoundsWithout(rs[..|rs| - 1], ids) else RoundsWithout(rs[..|rs| - 1], ids) + [last]
  }

  /** The rounds that belong to one of `ids`, in order. */
  function RoundsWithin(rs: seq<Round>, ids: set<string>): seq<Round> {
    RoundsWithinAmong(rs, |rs|, ids)
  }

  /** The rounds among the first `n` that belong to one of `ids`. */
  function RoundsWithinAmong(rs: seq<Round>, n: nat, ids: set<string>): seq<Round>
    requires n <= |rs|
  {
    if n == 0 then []
    else if rs[n - 1].story in ids then RoundsWithinAmong(rs, n - 1, ids) + [rs[n - 1]]
    else RoundsWithinAmong(rs, n - 1, ids)
  }

  /** The ids of the stored stories. */
  function StoryIds(ss: seq<Story>): set<string> {
    set s | s in ss :: s.storyId
  }

  /** The logs created at or after the cutoff, in order. */
  function RecentLogs(logs: seq<Models.ApiLog>, cutoff: int): seq<Models.ApiLog> {
    if logs == [] then []
    else
      var last := logs[|logs| - 1];
      if last.createdAt < cutoff then RecentLogs(logs[..|logs| - 1], cutoff) else RecentLogs(logs[..|logs| - 1], cutoff) + [last]
  }

  /** The four counters the script reports. */
  datatype Counts = Counts(expiredStories: int, orphanedRounds: int, oldApiLogs: int, totalSaved: int)

  /** The collections and the counters between passes. */
  datatype Cleaned = Cleaned(stories: seq<Story>, rounds: seq<Round>, apiLogs: seq<Models.ApiLog>, counts: Counts)

  /**
   * `cleanupExpiredStories`: completed stories untouched for 30 days go with
   * their rounds; one `expiredStories` per story, `totalSaved` per round.
   */
  function ExpiredPass(c: Cleaned, now: int): Cleaned {
    var cut := Cutoff(now, 30);
    var kept := KeptStories(c.stories, Completed, cut);
    var rounds := RoundsWithout(c.rounds, StaleIds(c.stories, Completed, cut));
    c.(stories := kept, rounds := rounds,
       counts := c.counts.(expiredStories := c.counts.expiredStories + (|c.stories| - |kept|),
                           totalSaved := c.counts.totalSaved + (|c.rounds| - |rounds|)))
  }

  /** `cleanupOrphanedRounds`: rounds of no stored story go, one `orphanedRounds` each. */
  function OrphanPass(c: Cleaned): Cleaned {
    var rounds := RoundsWithin(c.rounds, StoryIds(c.stories));
    c.(rounds := rounds,
       counts := c.counts.(orphanedRounds := c.counts.orphanedRounds + (|c.rounds| - |rounds|)))
  }

  /** `cleanupOldApiLogs`: logs older than 90 days go, and `oldApiLogs` is set to how many. */
  function LogPass(c: Cleaned, now: int): Cleaned {
    var logs := RecentLogs(c.apiLogs, Cutoff(now, 90));
    c.(apiLogs := logs, counts := c.counts.(oldApiLogs := |c.apiLogs| - |logs|))
  }

  /** `cleanupCancelledStories`: cancelled stories untouched for 7 days go with their rounds, counted in `totalSaved` only. */
  function CancelledPass(c: Cleaned, now: int): Cleaned {
    var cut := Cutoff(now, 7);
    var kept := KeptStories(c.stories, Cancelled, cut);
    var rounds := RoundsWithout(c.rounds, StaleIds(c.stories, Cancelled, cut));
    c.(stories := kept, rounds := rounds,
       counts := c.counts.(totalSaved := c.counts.totalSaved + (|c.rounds| - |rounds|)))
  }

  /** `cleanupDatabase` at `now`: the four passes in the script's order, from zeroed counters. */
  function CleanupRun(stories: seq<Story>, rounds: seq<Round>, logs: seq<Models.ApiLog>, now: int): Cleaned {
    var start := Cleaned(stories, rounds, logs, Counts(0, 0, 0, 0));
    CancelledPass(LogPass(OrphanPass(ExpiredPass(start, now)), now), now)
  }

  /** A pass keeps a story exactly when it is not stale. */
  lemma KeptStoriesSpec(ss: seq<Story>, status: StoryStatus, cutoff: int)
    ensures |KeptStories(ss, status, cutoff)| <= |ss|
    ensures forall s :: s in KeptStories(ss, status, cutoff) <==> s in ss && !Stale(s, status, cutoff)
    ensures forall s :: s in ss && Stale(s, status, cutoff) ==> s.storyId in StaleIds(ss, status, cutoff)
  {
    KeptAmongSpec(ss, |ss|, status, cutoff);
    assert ss[..|ss|] == ss;
  }

  lemma {:induction false} KeptAmongSpec(ss: seq<Story>, n: nat, status: StoryStatus, cutoff: int)
    requires n <= |ss|
    ensures |KeptAmong(ss, n, status, cutoff)| <= n
    ensures forall s :: s in KeptAmong(ss, n, status, cutoff) <==> s in ss[..n] && !Stale(s, status, cutoff)
    ensures forall s :: s in ss[..n] && Stale(s, status, cutoff) ==> s.storyId in StaleIdsAmong(ss, n, status, cutoff)
  {
    if n > 0 {
      KeptAmongSpec(ss, n - 1, status, cutoff);
      assert ss[..n] == ss[..n - 1] + [ss[n - 1]];
    }
  }

  /** Which rounds the two round filters keep. */
  lemma {:induction false} RoundFiltersSpec(rs: seq<Round>, ids: set<string>)
    ensures |RoundsWithout(rs, ids)| <= |rs| && |RoundsWithin(rs, ids)| <= |rs|
    ensures forall r :: r in RoundsWithout(rs, ids) <==> r in rs && r.story !in ids
    ensures forall r :: r in RoundsWithin(rs, ids) <==> r in rs && r.story in ids
  {
    RoundsWithinAmongSpec(rs, |rs|, ids);
    assert rs[..|rs|] == rs;
    RoundsWithoutSpec(rs, ids);
  }

  lemma {:induction false} RoundsWithoutSpec(rs: seq<Round>, ids: set<string>)
    ensures |RoundsWithout(rs, ids)| <= |rs|
    ensures forall r :: r in RoundsWithout(rs, ids) <==> r in rs && r.story !in ids
  {
    if rs != [] {
      var init := rs[..|rs| - 1];
      RoundsWithoutSpec(init, ids);
      assert rs == init + [rs[|rs| - 1]];
    }
  }

  lemma {:induction false} RoundsWithinAmongSpec(rs: seq<Round>, n: nat, ids: set<string>)
    requires n <= |rs|
    ensures |RoundsWithinAmong(rs, n, ids)| <= n
    ensures forall r :: r in RoundsWithinAmong(rs, n, ids) <==> r in rs[..n] && r.story in ids
  {
    if n > 0 {
      RoundsWithinAmongSpec(rs, n - 1, ids);
      assert rs[..n] == rs[..n - 1] + [rs[n - 1]];
    }
  }

  /** Deleting the rounds of one more story after a set of them is deleting the rounds of the union. */
  lemma {:induction false} RoundsWithoutUnion(rs: seq<Round>, ids: set<string>, id: string)
    ensures RoundsWithout(RoundsWithout(rs, ids), {id}) == RoundsWithout(rs, ids + {id})
  {
    if rs != [] {
      var init := rs[..|rs| - 1];
      var last := rs[|rs| - 1];
      RoundsWithoutUnion(init, ids, id);
      var head := RoundsWithout(init, ids);
      if last.story !in ids {
        var whole := head + [last];
        assert whole[..|whole| - 1] == head;
      }
    }
  }

  /** The logs pass keeps a log exactly when it is not older than the cutoff. */
  lemma {:induction false} RecentLogsSpec(logs: seq<Models.ApiLog>, cutoff: int)
    ensures |RecentLogs(logs, cutoff)| <= |logs|
    ensures forall l :: l in RecentLogs(logs, cutoff) <==> l in logs && l.createdAt >= cutoff
  {
    if logs != [] {
      var init := logs[..|logs| - 1];
      RecentLogsSpec(init, cutoff);
      assert logs == init + [logs[|logs| - 1]];
    }
  }

  /**
   * What a run leaves: exactly the stories that are neither completed and
   * untouched for 30 days nor cancelled and untouched for 7, so no story in
   * progress is ever deleted; exactly the logs not older than 90 days; and
   * only rounds whose story is still stored, so no orphan survives the run.
   */
  lemma {:induction false} CleanupRunSpec(stories: seq<Story>, rounds: seq<Round>, logs: seq<Models.ApiLog>, now: int)
    ensures var c := CleanupRun(stories, rounds, logs, now);
      && (forall s :: s in c.stories <==>
            s in stories && !Stale(s, Completed, Cutoff(now, 30)) && !Stale(s, Cancelled, Cutoff(now, 7)))
      && (forall s :: s in stories && s.status == InProgress ==> s in c.stories)
      && (forall l :: l in c.apiLogs <==> l in logs && l.createdAt >= Cutoff(now, 90))
      && (forall r :: r in c.rounds ==> r in rounds && r.story in StoryIds(c.stories))
  {
    var expiredCut, cancelledCut := Cutoff(now, 30), Cutoff(now, 7);
    var s1 := KeptStories(stories, Completed, expiredCut);
    var r1 := RoundsWithout(rounds, StaleIds(stories, Completed, expiredCut));
    var ids1 := StoryIds(s1);
    var r2 := RoundsWithin(r1, ids1);
    var gone := StaleIds(s1, Cancelled, cancelledCut);
    var s4 := KeptStories(s1, Cancelled, cancelledCut);
    KeptStoriesSpec(stories, Completed, expiredCut);
    KeptStoriesSpec(s1, Cancelled, cancelledCut);
    RoundFiltersSpec(rounds, StaleIds(stories, Completed, expiredCut));
    RoundFiltersSpec(r1, ids1);
    RoundFiltersSpec(r2, gone);
    RecentLogsSpec(logs, Cutoff(now, 90));
    forall r | r in RoundsWithout(r2, gone) ensures r.story in StoryIds(s4) {
      var s :| s in s1 && s.storyId == r.story;
      assert s in s4;
    }
  }

  /** The unique `storyId` index: stories with the same id are the same story. */
  predicate UniqueIds(ss: seq<Story>) {
    forall a, b :: a in ss && b in ss && a.storyId == b.storyId ==> a == b
  }

  /** An id a pass deletes belongs to a stale story of the pass. */
  lemma {:induction false} StaleIdsSpec(ss: seq<Story>, status: StoryStatus, cutoff: int)
    ensures forall id :: id in StaleIds(ss, status, cutoff) ==>
      exists s :: s in ss && Stale(s, status, cutoff) && s.storyId == id
  {
    StaleIdsAmongSpec(ss, |ss|, status, cutoff);
    assert ss[..|ss|] == ss;
  }

  lemma {:induction false} StaleIdsAmongSpec(ss: seq<Story>, n: nat, status: StoryStatus, cutoff: int)
    requires n <= |ss|
    ensures forall id :: id in StaleIdsAmong(ss, n, status, cutoff) ==>
      exists s :: s in ss[..n] && Stale(s, status, cutoff) && s.storyId == id
  {
    if n > 0 {
      StaleIdsAmongSpec(ss, n - 1, status, cutoff);
      assert ss[..n] == ss[..n - 1] + [ss[n - 1]];
    }
  }

  /**
   * With story ids unique, a run keeps every round whose story it keeps, so
   * the rounds left are exactly the old rounds of the stories left.
   */
  lemma {:induction false} CleanupKeepsLiveRounds(stories: seq<Story>, rounds: seq<Round>, logs: seq<Models.ApiLog>, now: int)
    requires UniqueIds(stories)
    ensures var c := CleanupRun(stories, rounds, logs, now);
      forall r :: r in c.rounds <==> r in rounds && r.story in StoryIds(c.stories)
  {
    var expiredCut, cancelledCut := Cutoff(now, 30), Cutoff(now, 7);
    var expired := StaleIds(stories, Completed, expiredCut);
    var s1 := KeptStories(stories, Completed, expiredCut);
    var r1 := RoundsWithout(rounds, expired);
    var ids1 := StoryIds(s1);
    var r2 := RoundsWithin(r1, ids1);
    var gone := StaleIds(s1, Cancelled, cancelledCut);
    var s4 := KeptStories(s1, Cancelled, cancelledCut);
    CleanupRunSpec(stories, rounds, logs, now);
    KeptStoriesSpec(stories, Completed, expiredCut);
    KeptStoriesSpec(s1, Cancelled, cancelledCut);
    StaleIdsSpec(stories, Completed, expiredCut);
    StaleIdsSpec(s1, Cancelled, cancelledCut);
    RoundFiltersSpec(rounds, expired);
    RoundFiltersSpec(r1, ids1);
    RoundFiltersSpec(r2, gone);
    forall r | r in rounds && r.story in StoryIds(s4) ensures r in RoundsWithout(r2, gone) {
      var s :| s in s4 && s.storyId == r.story;
      assert s in s1;
    }
  }

  /**
   * Every round the run removes is counted once, as orphaned or as saved, and
   * the log counter is the number of logs removed.  `expiredStories` is the
   * number of stories the expired pass removes (which ones, `KeptStoriesSpec`
   * says); the stories the cancelled pass removes make up the rest of the
   * stories removed and are counted nowhere.
   */
  lemma {:induction false} CountsSpec(stories: seq<Story>, rounds: seq<Round>, logs: seq<Models.ApiLog>, now: int)
    ensures var c := CleanupRun(stories, rounds, logs, now);
      && c.counts.totalSaved + c.counts.orphanedRounds == |rounds| - |c.rounds|
      && c.counts.expiredStories >= 0 && c.counts.orphanedRounds >= 0
      && c.counts.oldApiLogs == |logs| - |c.apiLogs| >= 0
      && c.counts.expiredStories <= |stories| - |c.stories|
      && c.counts.expiredStories == |stories| - |KeptStories(stories, Completed, Cutoff(now, 30))|
      && c.counts.expiredStories + (|KeptStories(stories, Completed, Cutoff(now, 30))| - |c.stories|)
         == |stories| - |c.stories|
  {
    var expiredCut, cancelledCut := Cutoff(now, 30), Cutoff(now, 7);
    var s1 := KeptStories(stories, Completed, expiredCut);
    var r1 := RoundsWithout(rounds, StaleIds(stories, Completed, expiredCut));
    var r2 := RoundsWithin(r1, StoryIds(s1));
    KeptStoriesSpec(stories, Completed, expiredCut);
    KeptStoriesSpec(s1, Cancelled, cancelledCut);
    RoundFiltersSpec(r1, StoryIds(s1));
    RecentLogsSpec(logs, Cutoff(now, 90));
  }

  /** Deleting nothing keeps every round. */
  lemma {:induction false} RoundsWithoutNone(rs: seq<Round>)
    ensures RoundsWithout(rs, {}) == rs
  {
    if rs != [] {
      RoundsWithoutNone(rs[..|rs| - 1]);
      assert rs == rs[..|rs| - 1] + [rs[|rs| - 1]];
    }
  }

  /** Removing the element just past a prefix. */
  lemma DropAfter<T>(done: seq<T>, rest: seq<T>)
    requires rest != []
    ensures var whole := done + rest;
      whole[..|done|] + whole[|done| + 1..] == done + rest[1..]
  {
    var whole := done + rest;
    assert whole[..|done|] == done;
    assert whole[|done| + 1..] == rest[1..];
  }

  /** Keeping the element just past a prefix. */
  lemma KeepAfter<T>(done: seq<T>, rest: seq<T>)
    requires rest != []
    ensures done + rest == (done + [rest[0]]) + rest[1..]
  {
  }

  /** The script's counters, updated in place by the passes. */
  class CleanupStats {
    var expiredStories: int
    var orphanedRounds: int
    var oldApiLogs: int
    var totalSaved: int

    constructor ()
      ensures expiredStories == 0 && orphanedRounds == 0 && oldApiLogs == 0 && totalSaved == 0
    {
      expiredStories, orphanedRounds, oldApiLogs, totalSaved := 0, 0, 0, 0;
    }

    /** The four counters as a value. */
    function Current(): Counts
      reads this
    {
      Counts(expiredStories, orphanedRounds, oldApiLogs, totalSaved)
    }
  }

  /** The database's collections with the counters. */
  function Snapshot(db: Models.Db, stats: CleanupStats): Cleaned
    reads db, stats
  {
    Cleaned(db.stories, db.rounds, db.apiLogs, stats.Current())
  }

  /** `cleanupDatabase`: the four passes in order; the result is `CleanupRun`. */
  method CleanupDatabase(now: int, db: Models.Db) returns (stats: CleanupStats)
    modifies db
    ensures fresh(stats)
    ensures Snapshot(db, stats) == CleanupRun(old(db.stories), old(db.rounds), old(db.apiLogs), now)
  {
    stats := new CleanupStats();
    CleanupExpiredStories(now, stats, db);
    CleanupOrphanedRounds(stats, db);
    CleanupOldApiLogs(now, stats, db);
    CleanupCancelledStories(now, stats, db);
  }

  /** `cleanupExpiredStories` on the database. */
  method CleanupExpiredStories(now: int, stats: CleanupStats, db: Models.Db)
    modifies stats, db
    ensures Snapshot(db, stats) == ExpiredPass(old(Snapshot(db, stats)), now)
  {
    var storiesDeleted, roundsDeleted := DeleteStaleStories(Completed, Cutoff(now, 30), db);
    stats.expiredStories := stats.expiredStories + storiesDeleted;
    stats.totalSaved := stats.totalSaved + roundsDeleted;
  }

  /** `cleanupCancelledStories` on the database. */
  method CleanupCancelledStories(now: int, stats: CleanupStats, db: Models.Db)
    modifies stats, db
    ensures Snapshot(db, stats) == CancelledPass(old(Snapshot(db, stats)), now)
  {
    var _, roundsDeleted := DeleteStaleStories(Cancelled, Cutoff(now, 7), db);
    stats.totalSaved := stats.totalSaved + roundsDeleted;
  }

  /**
   * The loop the two story passes share: each stale story in turn has its
   * rounds deleted and is then deleted itself.
   */
  method DeleteStaleStories(status: StoryStatus, cutoff: int, db: Models.Db)
    returns (storiesDeleted: int, roundsDeleted: int)
    modifies db
    ensures db.stories == KeptStories(old(db.stories), status, cutoff)
    ensures db.rounds == RoundsWithout(old(db.rounds), StaleIds(old(db.stories), status, cutoff))
    ensures db.apiLogs == old(db.apiLogs)
    ensures storiesDeleted == |old(db.stories)| - |db.stories|
    ensures roundsDeleted == |old(db.rounds)| - |db.rounds|
  {
    var all, rounds := db.stories, db.rounds;
    var i, j := 0, 0;
    storiesDeleted, roundsDeleted := 0, 0;
    RoundsWithoutNone(rounds);
    while i < |all|
      invariant 0 <= i <= |all|
      invariant db.stories == KeptAmong(all, i, status, cutoff) + all[i..]
      invariant storiesDeleted == i - j && |db.stories| == |all| - storiesDeleted
      invariant db.rounds == RoundsWithout(rounds, StaleIdsAmong(all, i, status, cutoff))
      invariant db.apiLogs == old(db.apiLogs)
      invariant roundsDeleted == |rounds| - |db.rounds|
    {
      var deleted, n := DeleteIfStale(status, cutoff, j, db, all, i, rounds);
      if deleted {
        storiesDeleted, roundsDeleted := storiesDeleted + 1, roundsDeleted + n;
      } else {
        j := j + 1;
      }
      i := i + 1;
    }
    assert all[i..] == [];
  }

  /**
   * One turn of that loop, on the story at position `j`, the `i`th of the
   * stories the pass started from: when it is stale, its rounds are deleted
   * and then the story.
   */
  method DeleteIfStale(
    status: StoryStatus, cutoff: int, j: nat, db: Models.Db,
    ghost all: seq<Story>, ghost i: nat, ghost rounds: seq<Round>)
    returns (deleted: bool, n: int)
    requires i < |all| && |db.stories| == j + (|all| - i)
    requires db.stories == KeptAmong(all, i, status, cutoff) + all[i..]
    requires db.rounds == RoundsWithout(rounds, StaleIdsAmong(all, i, status, cutoff))
    modifies db
    ensures deleted == Stale(all[i], status, cutoff)
    ensures db.stories == KeptAmong(all, i + 1, status, cutoff) + all[i + 1..]
    ensures |db.stories| == |old(db.stories)| - (if deleted then 1 else 0)
    ensures db.rounds == RoundsWithout(rounds, StaleIdsAmong(all, i + 1, status, cutoff))
    ensures n == |old(db.rounds)| - |db.rounds|
    ensures db.apiLogs == old(db.apiLogs)
  {
    ghost var kept, gone := KeptAmong(all, i, status, cutoff), StaleIdsAmong(all, i, status, cutoff);
    assert all[i..][1..] == all[i + 1..];
    var story := db.stories[j];
    deleted, n := Stale(story, status, cutoff), 0;
    if deleted {
      n := DeleteRoundsOf(story.storyId, db);
      RoundsWithoutUnion(rounds, gone, story.storyId);
      DropAfter(kept, all[i..]);
      db.stories := db.stories[..j] + db.stories[j + 1..];
    } else {
      KeepAfter(kept, all[i..]);
    }
  }

  /** `Round.deleteMany({ story })`: the number of rounds it removed. */
  method DeleteRoundsOf(storyId: string, db: Models.Db) returns (deleted: int)
    modifies db
    ensures db.rounds == RoundsWithout(old(db.rounds), {storyId})
    ensures db.stories == old(db.stories) && db.apiLogs == old(db.apiLogs)
    ensures deleted == |old(db.rounds)| - |db.rounds|
  {
    var before := |db.rounds|;
    db.rounds := RoundsWithout(db.rounds, {storyId});
    deleted := before - |db.rounds|;
  }

  /** `cleanupOrphanedRounds` on the database: each round of no stored story is deleted and counted. */
  method CleanupOrphanedRounds(stats: CleanupStats, db: Models.Db)
    modifies stats, db
    ensures Snapshot(db, stats) == OrphanPass(old(Snapshot(db, stats)))
  {
    var valid := StoryIds(db.stories);
    var deleted := DeleteOrphans(valid, db);
    stats.orphanedRounds := stats.orphanedRounds + deleted;
  }

  /** The loop over every round that deletes those whose story id is not among `valid`. */
  method DeleteOrphans(valid: set<string>, db: Models.Db) returns (deleted: int)
    modifies db
    ensures db.rounds == RoundsWithin(old(db.rounds), valid)
    ensures db.stories == old(db.stories) && db.apiLogs == old(db.apiLogs)
    ensures deleted == |old(db.rounds)| - |db.rounds|
  {
    var all := db.rounds;
    var i, j := 0, 0;
    deleted := 0;
    while i < |all|
      invariant 0 <= i <= |all|
      invariant db.rounds == RoundsWithinAmong(all, i, valid) + all[i..]
      invariant deleted == i - j && |db.rounds| == |all| - deleted
      invariant db.stories == old(db.stories) && db.apiLogs == old(db.apiLogs)
    {
      var orphan := DeleteIfOrphan(valid, j, db, all, i);
      if orphan {
        deleted := deleted + 1;
      } else {
        j := j + 1;
      }
      i := i + 1;
    }
    assert all[i..] == [];
  }

  /** One turn of that loop, on the round at position `j`, the `i`th of the rounds it started from. */
  method DeleteIfOrphan(valid: set<string>, j: nat, db: Models.Db, ghost all: seq<Round>, ghost i: nat)
    returns (orphan: bool)
    requires i < |all| && |db.rounds| == j + (|all| - i)
    requires db.rounds == RoundsWithinAmong(all, i, valid) + all[i..]
    modifies db
    ensures orphan == (all[i].story !in valid)
    ensures db.rounds == RoundsWithinAmong(all, i + 1, valid) + all[i + 1..]
    ensures |db.rounds| == |old(db.rounds)| - (if orphan then 1 else 0)
    ensures db.stories == old(db.stories) && db.apiLogs == old(db.apiLogs)
  {
    ghost var kept := RoundsWithinAmong(all, i, valid);
    assert all[i..][1..] == all[i + 1..];
    orphan := db.rounds[j].story !in valid;
    if orphan {
      DropAfter(kept, all[i..]);
      db.rounds := db.rounds[..j] + db.rounds[j + 1..];
    } else {
      KeepAfter(kept, all[i..]);
    }
  }

  /** `cleanupOldApiLogs` on the database. */
  method CleanupOldApiLogs(now: int, stats: CleanupStats, db: Models.Db)
    modifies stats, db
    ensures Snapshot(db, stats) == LogPass(old(Snapshot(db, stats)), now)
  {
    var before := |db.apiLogs|;
    db.apiLogs := RecentLogs(db.apiLogs, Cutoff(now, 90));
    stats.oldApiLogs := before - |db.apiLogs|;
  }
}
