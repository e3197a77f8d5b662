/**
 * The persistence schema of stories, rounds and API cost logs, and the
 * collections holding them.  A save runs the schema's validation and fails
 * on a violation, as Mongoose does; lookups return the first match in
 * insertion order.
 */
module Models {
  import opened Wrappers
  import opened StoryTypes
  import OrderedMap

  const DefaultTotalRounds: int := 50
  const MinTotalRounds: int := 5
  const MaxTotalRounds: int := 100

  /** Mongoose's `required` check on a String field: it rejects the empty string. */
  predicate Required(s: string) {
    s != ""
  }

  /**
   * A key a Mongoose `Map` field accepts: it neither starts with `$` nor
   * contains `.`, and is none of the reserved names `__proto__`,
   * `constructor` and `prototype`.
   */
  predicate MapKeyAllowed(k: string) {
    (k == [] || k[0] != '$') && '.' !in k
    && k != "__proto__" && k != "constructor" && k != "prototype"
  }

  /** Every key of the map is one a Mongoose `Map` accepts. */
  predicate MapKeysAllowed(m: OrderedMap.Entries) {
    forall i :: 0 <= i < |m| ==> MapKeyAllowed(m[i].0)
  }

  /**
   * The Story schema's validators: required storyId, chatId and theme,
   * totalRounds within [5, 100], and character names the `characters` Map
   * accepts as keys.  The enumerations hold by typing; currentRound has no
   * bound, and a character's player may be empty.
   */
  predicate StoryDocValid(s: Story) {
    Required(s.storyId) && Required(s.chatId) && Required(s.theme)
    && MinTotalRounds <= s.totalRounds <= MaxTotalRounds
    && MapKeysAllowed(s.characters)
  }

  /**
   * The key rule in examples: a character named `Dr. Who`, `$hero` or
   * `constructor` makes the story unsavable, and an ordinary name does not.
   */
  lemma MapKeyExamples()
    ensures !MapKeyAllowed("Dr. Who") && !MapKeyAllowed("$hero") && !MapKeyAllowed("constructor")
    ensures !MapKeyAllowed("__proto__") && !MapKeyAllowed("prototype")
    ensures MapKeyAllowed("Alice") && MapKeyAllowed("")
  {
    assert "Dr. Who"[2] == '.';
  }

  /**
   * The Round schema's validators: a required story reference and content,
   * and every option a required string; there is no bound on how many options.
   */
  predicate RoundDocValid(r: Round) {
    Required(r.story) && Required(r.storyContent)
    && forall i :: 0 <= i < |r.options| ==> Required(r.options[i])
  }

  /** `new Story({...})`: what the caller leaves out takes the schema's default. */
  function NewStory(
    storyId: string, chatId: string, theme: string, characters: Option<OrderedMap.Entries>,
    totalRounds: Option<int>, genre: StoryGenre, playMode: PlayMode, now: int): Story
  {
    Story(storyId, chatId, theme, characters.GetOr([]), totalRounds.GetOr(DefaultTotalRounds),
          0, InProgress, genre, playMode, now, now)
  }

  /**
   * A new story starts at round 0, in progress, with no characters and 50
   * rounds unless given; with the round count left out it passes validation
   * exactly when its required strings are present and its character names
   * are keys a Mongoose Map accepts, and a given count must lie in [5, 100].
   */
  lemma NewStoryDefaults(
    storyId: string, chatId: string, theme: string, characters: Option<OrderedMap.Entries>,
    totalRounds: Option<int>, genre: StoryGenre, playMode: PlayMode, now: int)
    ensures var s := NewStory(storyId, chatId, theme, characters, totalRounds, genre, playMode, now);
      && s.currentRound == 0 && s.status == InProgress
      && (characters.None? ==> s.characters == [])
      && (totalRounds.None? ==> s.totalRounds == 50)
      && (totalRounds.None? ==>
            (StoryDocValid(s) <==> storyId != "" && chatId != "" && theme != "" && MapKeysAllowed(s.characters)))
      && (StoryDocValid(s) ==> totalRounds.None? || 5 <= totalRounds.value <= 100)
  {
  }

  /** The index of the first element satisfying `p`, as `findOne` returns in insertion order. */
  function FirstIndex<T>(xs: seq<T>, p: T -> bool): (r: Option<nat>)
    ensures r.Some? ==> r.value < |xs| && p(xs[r.value])
    ensures r.Some? ==> forall j :: 0 <= j < r.value ==> !p(xs[j])
    ensures r.None? <==> forall j :: 0 <= j < |xs| ==> !p(xs[j])
  {
    if xs == [] then None
    else if p(xs[0]) then Some(0)
    else match FirstIndex(xs[1..], p)
      case None => None
      case Some(i) => Some(i + 1)
  }

  /** `Story.findOne({ chatId, status: 'in_progress' })`. */
  function ActiveStoryIndex(stories: seq<Story>, chatId: string): Option<nat> {
    FirstIndex(stories, (s: Story) => s.chatId == chatId && s.status == InProgress)
  }

  /** `Story.findOne({ storyId })`. */
  function StoryIndex(stories: seq<Story>, storyId: string): Option<nat> {
    FirstIndex(stories, (s: Story) => s.storyId == storyId)
  }

  /** `Round.findOne({ story, roundNumber })`. */
  function RoundIndex(rounds: seq<Round>, story: string, roundNumber: int): Option<nat> {
    FirstIndex(rounds, (r: Round) => r.story == story && r.roundNumber == roundNumber)
  }

  /**
   * `Round.find({ story })`: the story's rounds in insertion order, each
   * stored copy once; equal records stored twice are both found.
   */
  function RoundsOf(rounds: seq<Round>, story: string): (rs: seq<Round>)
    ensures forall i :: 0 <= i < |rs| ==> rs[i].story == story
    ensures forall r :: r in rounds && r.story == story ==> r in rs
    ensures forall r :: r in rs ==> r in rounds
  {
    if rounds == [] then []
    else (if rounds[0].story == story then [rounds[0]] else []) + RoundsOf(rounds[1..], story)
  }

  /**
   * `find` keeps every stored copy of the story's rounds: each record is
   * found as many times as it is stored, and no record of another story is.
   */
  lemma {:induction false} RoundsOfCounts(rounds: seq<Round>, story: string)
    ensures forall r :: multiset(RoundsOf(rounds, story))[r] == (if r.story == story then multiset(rounds)[r] else 0)
  {
    if rounds != [] {
      RoundsOfCounts(rounds[1..], story);
      assert rounds == [rounds[0]] + rounds[1..];
    }
  }

  /** Ascending round numbers. */
  predicate SortedByNumber(rs: seq<Round>) {
    forall i, j :: 0 <= i < j < |rs| ==> rs[i].roundNumber <= rs[j].roundNumber
  }

  /** Every round numbered at least `b`. */
  predicate AllAtLeast(rs: seq<Round>, b: int) {
    forall i :: 0 <= i < |rs| ==> b <= rs[i].roundNumber
  }

  /** Places `r` before the first round whose number is not smaller, keeping the order sorted. */
  function InsertByNumber(r: Round, rs: seq<Round>): (out: seq<Round>)
    requires SortedByNumber(rs)
    ensures SortedByNumber(out)
    ensures |out| == |rs| + 1
    ensures forall b :: AllAtLeast(rs, b) && b <= r.roundNumber ==> AllAtLeast(out, b)
  {
    if rs == [] || r.roundNumber <= rs[0].roundNumber then [r] + rs
    else
      var rest := InsertByNumber(r, rs[1..]);
      assert AllAtLeast(rs[1..], rs[0].roundNumber);
      assert AllAtLeast(rest, rs[0].roundNumber);
      [rs[0]] + rest
  }

  /** Insertion adds exactly the inserted round. */
  lemma {:induction false} InsertPermutes(r: Round, rs: seq<Round>)
    requires SortedByNumber(rs)
    ensures multiset(InsertByNumber(r, rs)) == multiset(rs) + multiset{r}
  {
    if !(rs == [] || r.roundNumber <= rs[0].roundNumber) {
      InsertPermutes(r, rs[1..]);
      assert rs == [rs[0]] + rs[1..];
    }
  }

  /**
   * `.sort({ roundNumber: 1 })`: ascending round numbers, a permutation of the
   * input.  The database leaves the order of equal numbers open; this
   * insertion sort is one admissible order.
   */
  function SortByNumber(rs: seq<Round>): (out: seq<Round>)
    ensures SortedByNumber(out)
    ensures multiset(out) == multiset(rs) && |out| == |rs|
  {
    if rs == [] then []
    else
      var rest := SortByNumber(rs[1..]);
      InsertPermutes(rs[0], rest);
      assert multiset(rs) == multiset(rs[1..]) + multiset{rs[0]} by {
        assert rs == [rs[0]] + rs[1..];
      }
      InsertByNumber(rs[0], rest)
  }

  /**
   * `.sort({ roundNumber: -1 }).limit(k)` read back in reverse: the last
   * (at most) `k` rounds in ascending order.
   */
  function LastRounds(rs: seq<Round>, k: nat): (out: seq<Round>)
    ensures |out| == if |rs| < k then |rs| else k
  {
    var sorted := SortByNumber(rs);
    sorted[|sorted| - (if |sorted| < k then |sorted| else k)..]
  }

  /**
   * The last rounds are ascending and drawn from the input, and a round of
   * the input left out is numbered no higher than any round kept.
   */
  lemma {:induction false} LastRoundsSpec(rs: seq<Round>, k: nat)
    ensures var out := LastRounds(rs, k);
      && SortedByNumber(out)
      && multiset(out) <= multiset(rs)
      && (forall r :: r in out ==> r in rs)
      && forall r :: r in rs && r !in out ==>
           forall j :: 0 <= j < |out| ==> r.roundNumber <= out[j].roundNumber
  {
    var sorted := SortByNumber(rs);
    var out := LastRounds(rs, k);
    var m := |sorted| - |out|;
    SuffixDrawn(sorted, m, out);
    LeftOutBelow(rs, sorted, m, out);
    forall r | r in out ensures r in rs {
      assert r in multiset(out);
    }
  }

  /** A suffix of an ascending sequence is ascending and drawn from it. */
  lemma SuffixDrawn(xs: seq<Round>, m: nat, out: seq<Round>)
    requires SortedByNumber(xs) && m <= |xs| && out == xs[m..]
    ensures SortedByNumber(out) && multiset(out) <= multiset(xs)
  {
    assert xs == xs[..m] + out;
  }

  /** Every round of the input outside the suffix is numbered no higher than the suffix. */
  lemma LeftOutBelow(rs: seq<Round>, sorted: seq<Round>, m: nat, out: seq<Round>)
    requires SortedByNumber(sorted) && multiset(sorted) == multiset(rs)
    requires m <= |sorted| && out == sorted[m..]
    ensures forall r :: r in rs && r !in out ==>
      forall j :: 0 <= j < |out| ==> r.roundNumber <= out[j].roundNumber
  {
    forall r | r in rs && r !in out
      ensures forall j :: 0 <= j < |out| ==> r.roundNumber <= out[j].roundNumber
    {
      SuffixAbove(rs, sorted, m, out, r);
    }
  }

  /** In an ascending sequence, an element outside a suffix is numbered no higher than the suffix. */
  lemma SuffixAbove(rs: seq<Round>, sorted: seq<Round>, m: nat, out: seq<Round>, r: Round)
    requires SortedByNumber(sorted) && multiset(sorted) == multiset(rs)
    requires m <= |sorted| && out == sorted[m..]
    requires r in rs && r !in out
    ensures forall j :: 0 <= j < |out| ==> r.roundNumber <= out[j].roundNumber
  {
    assert r in multiset(sorted);
    var i :| 0 <= i < |sorted| && sorted[i] == r;
    assert forall p :: m <= p < |sorted| ==> sorted[p] == out[p - m];
    assert i < m;
    forall j | 0 <= j < |out| ensures r.roundNumber <= out[j].roundNumber {
      assert out[j] == sorted[m + j];
    }
  }

  /** The round a generation reply becomes: no choice yet, the next character from the reply. */
  function GeneratedRound(storyId: string, roundNumber: int, response: StoryResponse): Round {
    Round(storyId, roundNumber, response.storyText, response.options, None, None, Some(response.nextCharacterName))
  }

  /** An API cost log entry; only its creation time matters to the model. */
  datatype ApiLog = ApiLog(storyId: string, createdAt: int)

  /** The Story, Round and ApiCostLog collections. */
  class Db {
    var stories: seq<Story>
    var rounds: seq<Round>
    // Read and pruned by the cleanup script; the generation calls' own log writes are not modelled.
    var apiLogs: seq<ApiLog>

    constructor (stories: seq<Story>, rounds: seq<Round>, apiLogs: seq<ApiLog>)
      ensures this.stories == stories && this.rounds == rounds && this.apiLogs == apiLogs
    {
      this.stories := stories;
      this.rounds := rounds;
      this.apiLogs := apiLogs;
    }

    /** Whether `storyId` is already taken: the unique index rejects a second story with it. */
    predicate HasStoryId(storyId: string)
      reads this
    {
      StoryIndex(stories, storyId).Some?
    }

    /** `story.save()` for a new story: validation, then the unique storyId index. */
    method InsertStory(s: Story) returns (ok: bool)
      modifies this
      ensures ok <==> StoryDocValid(s) && !old(HasStoryId(s.storyId))
      ensures stories == if ok then old(stories) + [s] else old(stories)
      ensures rounds == old(rounds) && apiLogs == old(apiLogs)
    {
      ok := StoryDocValid(s) && StoryIndex(stories, s.storyId).None?;
      if ok {
        stories := stories + [s];
      }
    }

    /** `story.save()` for a story already stored at index `i`. */
    method UpdateStory(i: nat, s: Story) returns (ok: bool)
      requires i < |stories|
      modifies this
      ensures ok <==> StoryDocValid(s)
      ensures stories == if ok then old(stories)[i := s] else old(stories)
      ensures rounds == old(rounds) && apiLogs == old(apiLogs)
    {
      ok := StoryDocValid(s);
      if ok {
        stories := stories[i := s];
      }
    }

    /** `round.save()` for a new round. */
    method InsertRound(r: Round) returns (ok: bool)
      modifies this
      ensures ok <==> RoundDocValid(r)
      ensures rounds == if ok then old(rounds) + [r] else old(rounds)
      ensures stories == old(stories) && apiLogs == old(apiLogs)
    {
      ok := RoundDocValid(r);
      if ok {
        rounds := rounds + [r];
      }
    }

    /** `round.save()` for a round already stored at index `i`. */
    method UpdateRound(i: nat, r: Round) returns (ok: bool)
      requires i < |rounds|
      modifies this
      ensures ok <==> RoundDocValid(r)
      ensures rounds == if ok then old(rounds)[i := r] else old(rounds)
      ensures stories == old(stories) && apiLogs == old(apiLogs)
    {
      ok := RoundDocValid(r);
      if ok {
        rounds := rounds[i := r];
      }
    }
  }

  /** A story stored under a fresh id is the one `findOne({ storyId })` finds, at the end. */
  lemma {:induction false} StoryIndexAfterInsert(stories: seq<Story>, s: Story)
    requires StoryIndex(stories, s.storyId).None?
    ensures StoryIndex(stories + [s], s.storyId) == Some(|stories|)
  {
    if stories != [] {
      assert (stories + [s])[1..] == stories[1..] + [s];
      StoryIndexAfterInsert(stories[1..], s);
    }
  }

  /**
   * The `(chatId, status)` index is not unique: two in-progress stories of one
   * chat both pass validation and may be stored together.
   */
  lemma ActiveStoryNotUnique(a: Story, b: Story)
    requires StoryDocValid(a) && StoryDocValid(b) && a.storyId != b.storyId
    requires a.chatId == b.chatId && a.status == InProgress && b.status == InProgress
    ensures ActiveStoryIndex([a, b], a.chatId) == Some(0)
    ensures StoryIndex([a], b.storyId).None?
  {
  }

  /**
   * The `(story, roundNumber)` index is not unique either: a second round with
   * the same number is stored, and `findOne` keeps returning the first.
   */
  lemma DuplicateRoundNumberShadowed(rounds: seq<Round>, r: Round)
    requires RoundIndex(rounds, r.story, r.roundNumber).Some?
    ensures RoundIndex(rounds + [r], r.story, r.roundNumber) == RoundIndex(rounds, r.story, r.roundNumber)
  {
    var i := RoundIndex(rounds, r.story, r.roundNumber).value;
    var p := (x: Round) => x.story == r.story && x.roundNumber == r.roundNumber;
    FirstIndexOfExtension(rounds, [r], p, i);
  }

  lemma {:induction false} FirstIndexOfExtension<T>(xs: seq<T>, ys: seq<T>, p: T -> bool, i: nat)
    requires FirstIndex(xs, p) == Some(i)
    ensures FirstIndex(xs + ys, p) == Some(i)
  {
    if !p(xs[0]) {
      assert (xs + ys)[1..] == xs[1..] + ys;
      FirstIndexOfExtension(xs[1..], ys, p, i - 1);
    }
  }
}
