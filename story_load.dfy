/**
 * `loadStory` and the two messages it sends: the summary reply built by
 * `buildStoryInfo`, and the full rounds pushed three at a time by
 * `sendDetailedStoryContent`.  The database is read, never written; the
 * locale formatting of the creation time is a parameter; a message is the
 * sequence of its lines, each line a value that names what it shows, and
 * the messages are returned instead of being sent.
 */
module StoryLoad {
  import opened Wrappers
  import opened StoryTypes
  import StoryId
  import OrderedMap
  import Models

  /** A line of a message, by what it shows; `Blank` is an empty line. */
  datatype Line =
    | InfoTitle
    | IdLine(storyId: string)
    | ModeLine(mode: PlayMode)
    | GenreLine(genre: StoryGenre)
    | StatusLine(status: StoryStatus)
    | ProgressLine(currentRound: int, totalRounds: int)
    | CreatedLine(created: string)
    | ThemeTitle
    | CharactersTitle
      /** A character, with the player who plays it when that is shown. */
    | CharacterEntry(name: string, player: Option<string>)
    | RecentTitle(count: int)
    | RoundTitle(roundNumber: int)
    | Content(text: string)
      /** The choice as the summary shows it. */
    | ChoiceNote(choice: string)
    | OptionsTitle
    | OptionEntry(letter: char, option: string)
      /** The choice as the full text shows it, marked as made. */
    | ChoiceMade(choice: string)
    | ChooserLine(userId: string)
    | BatchTitle(first: int, last: int)
    | Separator
    | Blank
    | HintLine

  type Message = seq<Line>

  /** What a load request is answered with. */
  datatype LoadResult =
    | InvalidId
    | NotFound
    | NoContent
      /** The summary reply, and the batches pushed to the story's own chat. */
    | Loaded(info: Message, detailChat: string, detail: seq<Message>)

  /** Characters of content a summary shows, and rounds per pushed batch. */
  const ExcerptLength: nat := 100
  const BatchSize: nat := 3

  function Min(a: int, b: int): int {
    if a <= b then a else b
  }

  predicate EndsWith(s: string, suffix: string) {
    |suffix| <= |s| && s[|s| - |suffix|..] == suffix
  }

  /** The message closes with the hint that the full content follows. */
  predicate EndsWithHint(m: Message) {
    |m| > 0 && m[|m| - 1] == HintLine
  }

  // ---------------------------------------------------------------- summary

  /** The fixed lines of the summary: id, mode, genre, status, progress, creation time and theme. */
  function Header(story: Story, createdText: string): Message {
    [InfoTitle, Blank,
     IdLine(story.storyId), ModeLine(story.playMode), GenreLine(story.genre), StatusLine(story.status),
     ProgressLine(story.currentRound, story.totalRounds), CreatedLine(createdText), Blank,
     ThemeTitle, Content(story.theme), Blank]
  }

  /** A character's line: the player is shown when one is set and the story is role-played. */
  function CharacterLine(name: string, userId: string, mode: PlayMode): Line {
    CharacterEntry(name, if userId != "" && mode == RolePlaying then Some(userId) else None)
  }

  /** The lines of the first `k` characters, in the map's order. */
  function CharacterLines(entries: OrderedMap.Entries, mode: PlayMode, k: nat): Message
    requires k <= |entries|
  {
    if k == 0 then []
    else CharacterLines(entries, mode, k - 1) + [CharacterLine(entries[k - 1].0, entries[k - 1].1, mode)]
  }

  /** The character list, present only when the story has characters. */
  function CharacterSection(entries: OrderedMap.Entries, mode: PlayMode): Message {
    if |entries| > 0 then [CharactersTitle] + CharacterLines(entries, mode, |entries|) + [Blank] else []
  }

  /** `substring(0, 100)`, with "..." when the content is longer. */
  function Excerpt(content: string): string {
    content[..Min(|content|, ExcerptLength)] + (if |content| > ExcerptLength then "..." else "")
  }

  /** A recent round in the summary: number, excerpt, and the choice when one was made. */
  function RoundSummary(r: Round): Message {
    [RoundTitle(r.roundNumber), Content(Excerpt(r.storyContent))]
    + (if Truthy(r.userChoice) then [ChoiceNote(r.userChoice.value)] else [])
    + [Blank]
  }

  /** The summaries of the first `k` of `recent`. */
  function Summaries(recent: seq<Round>, k: nat): Message
    requires k <= |recent|
  {
    if k == 0 then [] else Summaries(recent, k - 1) + RoundSummary(recent[k - 1])
  }

  /** `rounds.slice(-2)`: the last two rounds, or all of them when fewer. */
  function Recent(rounds: seq<Round>): seq<Round> {
    rounds[|rounds| - Min(|rounds|, 2)..]
  }

  /** The recent-rounds section, present only when there are rounds, with their count. */
  function RecentSection(recent: seq<Round>): Message {
    if |recent| > 0 then [RecentTitle(|recent|), Blank] + Summaries(recent, |recent|) else []
  }

  /** The summary without the closing hint. */
  function InfoBody(story: Story, rounds: seq<Round>, createdText: string): Message {
    Header(story, createdText) + CharacterSection(story.characters, story.playMode) + RecentSection(Recent(rounds))
  }

  /** `buildStoryInfo` over the story's rounds in ascending order. */
  function StoryInfo(story: Story, rounds: seq<Round>, createdText: string): Message {
    InfoBody(story, rounds, createdText) + (if |rounds| > 2 then [Blank, HintLine] else [])
  }

  // ---------------------------------------------------------------- detail

  /**
   * `String.fromCharCode(65 + j)`: the code is taken modulo 2^16; a code in
   * the surrogate range, which no character here can hold, becomes U+FFFD.
   */
  function Letter(j: nat): char {
    var code := (65 + j) % 0x1_0000;
    if 0xD800 <= code < 0xE000 then '\U{FFFD}' else code as char
  }

  /** The lines of the first `k` options. */
  function OptionLines(options: seq<string>, k: nat): Message
    requires k <= |options|
  {
    if k == 0 then [] else OptionLines(options, k - 1) + [OptionEntry(Letter(k - 1), options[k - 1])]
  }

  /** The option list, present only when the round has options. */
  function OptionsBlock(options: seq<string>): Message {
    if |options| > 0 then [OptionsTitle] + OptionLines(options, |options|) + [Blank] else []
  }

  /** The choice line, followed by the chooser line when the chooser is known too. */
  function ChoiceBlock(r: Round): Message {
    if Truthy(r.userChoice) then
      [ChoiceMade(r.userChoice.value)] + (if Truthy(r.chosenBy) then [ChooserLine(r.chosenBy.value)] else [])
    else []
  }

  /** A round in full: number, whole content, options, choice, and a separator. */
  function RoundDetail(r: Round): Message {
    [RoundTitle(r.roundNumber), Content(r.storyContent), Blank]
    + OptionsBlock(r.options)
    + ChoiceBlock(r)
    + [Blank, Separator, Blank]
  }

  /** The details of the first `k` rounds of a batch. */
  function BatchRounds(batch: seq<Round>, k: nat): Message
    requires k <= |batch|
  {
    if k == 0 then [] else BatchRounds(batch, k - 1) + RoundDetail(batch[k - 1])
  }

  /** The heading of a batch, naming the range of positions it covers. */
  function BatchHeader(first: int, last: int): Message {
    [BatchTitle(first, last), Blank]
  }

  /** The rounds of the batch starting at position `i`: three, or what is left. */
  function Batch(rounds: seq<Round>, i: nat): seq<Round>
    requires i < |rounds|
  {
    rounds[i..Min(i + BatchSize, |rounds|)]
  }

  /** The message of the batch starting at position `i`: the range it covers, then its rounds in full. */
  function BatchText(rounds: seq<Round>, i: nat): Message
    requires i < |rounds|
  {
    var batch := Batch(rounds, i);
    BatchHeader(i + 1, i + |batch|) + BatchRounds(batch, |batch|)
  }

  /** `for (let i = start; i < n; i += 3)`: what `render` gives at each `i`, in order. */
  function Strided<M>(n: nat, start: nat, render: nat -> M): seq<M>
    decreases n - start
  {
    if start >= n then [] else [render(start)] + Strided(n, start + BatchSize, render)
  }

  /** The batch starting at each position (nothing past the end). */
  function BatchFrom(rounds: seq<Round>): nat -> seq<Round> {
    (i: nat) => if i < |rounds| then Batch(rounds, i) else []
  }

  /** The message of the batch starting at each position (nothing past the end). */
  function BatchAt(rounds: seq<Round>): nat -> Message {
    (i: nat) => if i < |rounds| then BatchText(rounds, i) else []
  }

  /** The partition `sendDetailedStoryContent` walks. */
  function Batches(rounds: seq<Round>): seq<seq<Round>> {
    Strided(|rounds|, 0, BatchFrom(rounds))
  }

  /** `sendDetailedStoryContent`: one message per batch of three rounds. */
  function DetailMessages(rounds: seq<Round>): seq<Message> {
    Strided(|rounds|, 0, BatchAt(rounds))
  }

  function Flatten(bs: seq<seq<Round>>): seq<Round> {
    if bs == [] then [] else bs[0] + Flatten(bs[1..])
  }

  // ---------------------------------------------------------------- load

  /**
   * `loadStory`: the id format is checked before any lookup, then the story
   * must exist, then it must have rounds; the rounds are read in ascending
   * number, and the detail follows only for more than three rounds.
   */
  function LoadOutcome(stories: seq<Story>, rounds: seq<Round>, storyId: string, formatDate: int -> string)
    : LoadResult
  {
    if !StoryId.ValidateStoryId(storyId) then InvalidId
    else match Models.StoryIndex(stories, storyId)
      case None => NotFound
      case Some(si) =>
        var story := stories[si];
        var sorted := Models.SortByNumber(Models.RoundsOf(rounds, story.storyId));
        if |sorted| == 0 then NoContent
        else Loaded(StoryInfo(story, sorted, formatDate(story.createdAt)), story.chatId,
                    if |sorted| > 3 then DetailMessages(sorted) else [])
  }

  // ---------------------------------------------------------------- properties

  /**
   * The rejections come in the source's order: a malformed id is turned away
   * before the store is consulted, an unknown story next, a story without
   * rounds last.  A loaded story's detail goes to the story's own chat, is
   * sent exactly when it has more than three rounds, one message per three
   * rounds rounded up; the summary ends with the hint exactly when it has
   * more than two, so with exactly three the hint promises a detail that
   * never follows.
   */
  lemma LoadOrder(stories: seq<Story>, rounds: seq<Round>, storyId: string, formatDate: int -> string)
    ensures var r := LoadOutcome(stories, rounds, storyId, formatDate);
      var valid := StoryId.ValidateStoryId(storyId);
      var found := Models.StoryIndex(stories, storyId);
      var n := |Models.RoundsOf(rounds, storyId)|;
      && (r.InvalidId? <==> !valid)
      && (r.NotFound? <==> valid && found.None?)
      && (r.NoContent? <==> valid && found.Some? && n == 0)
      && (r.Loaded? <==> valid && found.Some? && n > 0)
      && (r.Loaded? ==>
            && r.detailChat == stories[found.value].chatId
            && (r.detail != [] <==> n > 3)
            && |r.detail| == (if n > 3 then (n + 2) / 3 else 0)
            && (EndsWithHint(r.info) <==> n > 2))
  {
    var found := Models.StoryIndex(stories, storyId);
    if StoryId.ValidateStoryId(storyId) && found.Some? {
      var story := stories[found.value];
      assert story.storyId == storyId;
      var sorted := Models.SortByNumber(Models.RoundsOf(rounds, storyId));
      if |sorted| > 0 {
        HintIff(story, sorted, formatDate(story.createdAt));
        DetailSpec(sorted);
      }
    }
  }

  /**
   * The rounds a load works on are the story's stored rounds in ascending
   * number: each stored copy exactly once, and nothing of another story.
   */
  lemma LoadedRoundsAreStored(rounds: seq<Round>, storyId: string)
    ensures var sorted := Models.SortByNumber(Models.RoundsOf(rounds, storyId));
      && Models.SortedByNumber(sorted)
      && forall r :: multiset(sorted)[r] == (if r.story == storyId then multiset(rounds)[r] else 0)
  {
    Models.RoundsOfCounts(rounds, storyId);
  }

  /** The summary ends with the hint exactly when there are more than two rounds. */
  lemma HintIff(story: Story, rounds: seq<Round>, createdText: string)
    ensures EndsWithHint(StoryInfo(story, rounds, createdText)) <==> |rounds| > 2
  {
    var h := Header(story, createdText);
    var c := CharacterSection(story.characters, story.playMode);
    var recent := Recent(rounds);
    var r := RecentSection(recent);
    if |recent| > 0 {
      assert Summaries(recent, |recent|)[|Summaries(recent, |recent|)| - 1] == Blank;
      assert r[|r| - 1] == Blank;
    }
    if |story.characters| > 0 {
      assert c[|c| - 1] == Blank;
    }
    var body := h + c + r;
    assert body[|body| - 1] == Blank;
    if |rounds| <= 2 {
      assert StoryInfo(story, rounds, createdText) == body;
    }
  }

  /** The characters are listed in the map's order, each with its player exactly when one is set in role-playing mode. */
  lemma {:induction false} CharacterLinesSpec(entries: OrderedMap.Entries, mode: PlayMode, k: nat)
    requires k <= |entries|
    ensures var ls := CharacterLines(entries, mode, k);
      && |ls| == k
      && forall j :: 0 <= j < k ==>
           && ls[j].CharacterEntry? && ls[j].name == entries[j].0
           && (ls[j].player.Some? <==> entries[j].1 != "" && mode == RolePlaying)
           && (ls[j].player.Some? ==> ls[j].player.value == entries[j].1)
  {
    if k > 0 {
      CharacterLinesSpec(entries, mode, k - 1);
    }
  }

  /**
   * The summary's recent rounds are the story's last `min(2, n)` rounds by
   * number: ascending, drawn from its rounds, and no round left out is
   * numbered above one shown.
   */
  lemma RecentIsLast(rs: seq<Round>)
    ensures var recent := Recent(Models.SortByNumber(rs));
      && recent == Models.LastRounds(rs, 2)
      && |recent| == Min(|rs|, 2)
      && Models.SortedByNumber(recent)
      && (forall r :: r in recent ==> r in rs)
      && (forall r :: r in rs && r !in recent ==>
            forall j :: 0 <= j < |recent| ==> r.roundNumber <= recent[j].roundNumber)
  {
    var recent := Recent(Models.SortByNumber(rs));
    assert recent == Models.LastRounds(rs, 2);
    Models.LastRoundsSpec(rs, 2);
  }

  /**
   * The excerpt is the content's first 100 characters, followed by "..."
   * when the content is longer; short content is shown whole.
   */
  lemma ExcerptSpec(content: string)
    ensures var e := Excerpt(content);
      var shown := Min(|content|, ExcerptLength);
      && |e| == (if |content| > ExcerptLength then ExcerptLength + 3 else |content|)
      && e[..shown] == content[..shown]
      && (|content| <= ExcerptLength ==> e == content)
      && (|content| > ExcerptLength ==> EndsWith(e, "..."))
  {
    var e := Excerpt(content);
    var shown := Min(|content|, ExcerptLength);
    assert e[..shown] == content[..shown];
    if |content| > ExcerptLength {
      assert e[|e| - 3..] == "...";
    } else {
      assert e == content[..shown];
    }
  }

  /** A recent round's summary notes a choice exactly when one was made, and notes that choice. */
  lemma SummaryChoiceIff(r: Round, c: string)
    ensures ChoiceNote(c) in RoundSummary(r) <==> Truthy(r.userChoice) && r.userChoice.value == c
  {
  }

  /** The options are listed in order, the j-th under the j-th letter. */
  lemma {:induction false} OptionLinesSpec(options: seq<string>, k: nat)
    requires k <= |options|
    ensures var ls := OptionLines(options, k);
      && |ls| == k
      && forall j :: 0 <= j < k ==> ls[j] == OptionEntry(Letter(j), options[j])
  {
    if k > 0 {
      OptionLinesSpec(options, k - 1);
    }
  }

  /**
   * In the full text a round shows its choice exactly when one was made, and
   * its chooser exactly when both the choice and the chooser are set.
   */
  lemma DetailChoiceIff(r: Round, c: string, u: string)
    ensures ChoiceMade(c) in RoundDetail(r) <==> Truthy(r.userChoice) && r.userChoice.value == c
    ensures ChooserLine(u) in RoundDetail(r) <==>
      Truthy(r.userChoice) && Truthy(r.chosenBy) && r.chosenBy.value == u
  {
    OptionLinesAreEntries(r.options, |r.options|);
    var head, tail := [RoundTitle(r.roundNumber), Content(r.storyContent), Blank], [Blank, Separator, Blank];
    assert RoundDetail(r) == head + OptionsBlock(r.options) + ChoiceBlock(r) + tail;
  }

  /** The option lines are all lettered options. */
  lemma {:induction false} OptionLinesAreEntries(options: seq<string>, k: nat)
    requires k <= |options|
    ensures forall l :: l in OptionLines(options, k) ==> l.OptionEntry?
  {
    if k > 0 {
      OptionLinesAreEntries(options, k - 1);
      OptionLinesStep(options, k - 1);
    }
  }

  /**
   * Options are lettered from 'A' upwards, one code point per position, so
   * distinct positions get distinct letters (below the surrogate range).
   */
  lemma LetterSpec(i: nat, j: nat)
    ensures 65 + j < 0xD800 ==> Letter(j) as int == 65 + j
    ensures Letter(0) == 'A' && Letter(1) == 'B' && Letter(25) == 'Z'
    ensures i != j && 65 + i < 0xD800 && 65 + j < 0xD800 ==> Letter(i) != Letter(j)
  {
  }

  /**
   * The batches are consecutive: together they are the rounds, in order,
   * each holds one to three rounds, the k-th starts at `3k`, and there are
   * as many as thirds, rounded up.
   */
  lemma BatchesSpec(rs: seq<Round>)
    ensures var bs := Batches(rs);
      && Flatten(bs) == rs
      && |bs| == (|rs| + 2) / 3
      && forall k :: 0 <= k < |bs| ==> 1 <= |bs[k]| <= 3 && bs[k] == rs[3 * k..Min(3 * k + 3, |rs|)]
  {
    var bs := Batches(rs);
    StridedSpec(|rs|, 0, BatchFrom(rs));
    forall k | 0 <= k < |bs|
      ensures 1 <= |bs[k]| <= 3 && bs[k] == rs[3 * k..Min(3 * k + 3, |rs|)]
    {
      assert bs[k] == BatchFrom(rs)(3 * k);
    }
    BatchesCover(rs, 0);
  }

  /** The batches from position `i` on, put together, are the rounds from `i` on. */
  lemma {:induction false} BatchesCover(rs: seq<Round>, i: nat)
    requires i <= |rs|
    ensures Flatten(Strided(|rs|, i, BatchFrom(rs))) == rs[i..]
    decreases |rs| - i
  {
    if i < |rs| {
      var first, rest := Batch(rs, i), Strided(|rs|, i + BatchSize, BatchFrom(rs));
      assert Strided(|rs|, i, BatchFrom(rs)) == [first] + rest;
      FlattenCons(first, rest);
      if i + BatchSize <= |rs| {
        BatchesCover(rs, i + BatchSize);
        assert rs[i..] == first + rs[i + BatchSize..];
      } else {
        assert rest == [];
        assert first == rs[i..];
      }
    }
  }

  lemma FlattenCons(b: seq<Round>, bs: seq<seq<Round>>)
    ensures Flatten([b] + bs) == b + Flatten(bs)
  {
    assert ([b] + bs)[1..] == bs;
  }

  /** From position `i`, the k-th value is the one at `i + 3k`, and there are as many as thirds, rounded up. */
  lemma {:induction false} StridedSpec<M>(n: nat, i: nat, render: nat -> M)
    requires i <= n
    ensures var s := Strided(n, i, render);
      && |s| == (n - i + 2) / 3
      && forall k :: 0 <= k < |s| ==> i + 3 * k < n && s[k] == render(i + 3 * k)
    decreases n - i
  {
    if i < n {
      var s, rest := Strided(n, i, render), Strided(n, i + BatchSize, render);
      if i + BatchSize <= n {
        StridedSpec(n, i + BatchSize, render);
        forall k | 0 < k < |s|
          ensures i + 3 * k < n && s[k] == render(i + 3 * k)
        {
          assert s[k] == rest[k - 1];
          assert i + 3 * k == (i + BatchSize) + 3 * (k - 1);
        }
      } else {
        assert rest == [];
      }
    }
  }

  /**
   * The detail is one message per batch, in order: the k-th message is the
   * batch starting at position `3k`, whose rounds are the k-th of `Batches`.
   */
  lemma DetailSpec(rs: seq<Round>)
    ensures var ms := DetailMessages(rs);
      && |ms| == (|rs| + 2) / 3
      && forall k :: 0 <= k < |ms| ==> 3 * k < |rs| && ms[k] == BatchText(rs, 3 * k)
  {
    var ms := DetailMessages(rs);
    StridedSpec(|rs|, 0, BatchAt(rs));
    forall k | 0 <= k < |ms|
      ensures 3 * k < |rs| && ms[k] == BatchText(rs, 3 * k)
    {
      assert ms[k] == BatchAt(rs)(3 * k);
    }
  }

  // ---------------------------------------------------------------- methods

  /**
   * `loadStory` against the store: the answer is the one `LoadOutcome`
   * gives, so `LoadOrder` describes it.
   */
  method LoadStory(db: Models.Db, storyId: string, formatDate: int -> string) returns (r: LoadResult)
    ensures r == LoadOutcome(db.stories, db.rounds, storyId, formatDate)
  {
    if !StoryId.ValidateStoryId(storyId) {
      return InvalidId;
    }
    var found := Models.StoryIndex(db.stories, storyId);
    if found.None? {
      return NotFound;
    }
    var story := db.stories[found.value];
    var rounds := Models.SortByNumber(Models.RoundsOf(db.rounds, story.storyId));
    if |rounds| == 0 {
      return NoContent;
    }
    var info := BuildStoryInfo(story, rounds, formatDate(story.createdAt));
    var detail := [];
    if |rounds| > 3 {
      detail := SendDetailedStoryContent(rounds);
    }
    r := Loaded(info, story.chatId, detail);
  }

  /** `buildStoryInfo`, appending line by line. */
  method BuildStoryInfo(story: Story, rounds: seq<Round>, createdText: string) returns (info: Message)
    ensures info == StoryInfo(story, rounds, createdText)
  {
    info := Header(story, createdText);
    info := ListCharacters(info, story.characters, story.playMode);
    var recent := rounds[|rounds| - Min(|rounds|, 2)..];
    info := ListRecent(info, recent);
    if |rounds| > 2 {
      info := info + [Blank, HintLine];
    }
  }

  /** The character list appended to `info`, one line per character in the map's order. */
  method ListCharacters(info: Message, entries: OrderedMap.Entries, mode: PlayMode) returns (out: Message)
    ensures out == info + CharacterSection(entries, mode)
  {
    out := info;
    if |entries| > 0 {
      var lines := [];
      var k := 0;
      while k < |entries|
        invariant 0 <= k <= |entries|
        invariant lines == CharacterLines(entries, mode, k)
      {
        var name, userId := entries[k].0, entries[k].1;
        var player := None;
        if userId != "" && mode == RolePlaying {
          player := Some(userId);
        }
        assert CharacterLine(name, userId, mode) == CharacterEntry(name, player);
        CharacterLinesStep(entries, mode, k);
        lines := lines + [CharacterEntry(name, player)];
        k := k + 1;
      }
      out := out + [CharactersTitle] + lines + [Blank];
    }
  }

  /** The recent-rounds section appended to `info`, one summary per round. */
  method ListRecent(info: Message, recent: seq<Round>) returns (out: Message)
    ensures out == info + RecentSection(recent)
  {
    out := info;
    if |recent| > 0 {
      var lines := [];
      var k := 0;
      while k < |recent|
        invariant 0 <= k <= |recent|
        invariant lines == Summaries(recent, k)
      {
        var summary := SummarizeRound(recent[k]);
        SummariesStep(recent, k);
        lines := lines + summary;
        k := k + 1;
      }
      out := out + [RecentTitle(|recent|), Blank] + lines;
    }
  }

  /** One recent round of the summary. */
  method SummarizeRound(r: Round) returns (lines: Message)
    ensures lines == RoundSummary(r)
  {
    var content := r.storyContent;
    var shown := content[..Min(|content|, ExcerptLength)];
    if |content| > ExcerptLength {
      shown := shown + "...";
    } else {
      assert shown == shown + "";
    }
    lines := [RoundTitle(r.roundNumber), Content(shown)];
    if Truthy(r.userChoice) {
      lines := lines + [ChoiceNote(r.userChoice.value)];
    }
    lines := lines + [Blank];
  }

  /** `sendDetailedStoryContent`: the batch messages in the order they are pushed. */
  method SendDetailedStoryContent(rounds: seq<Round>) returns (messages: seq<Message>)
    ensures messages == DetailMessages(rounds)
  {
    messages := [];
    var i := 0;
    while i < |rounds|
      invariant messages + Strided(|rounds|, i, BatchAt(rounds)) == DetailMessages(rounds)
      decreases |rounds| - i
    {
      var content := BatchContent(rounds, i);
      assert BatchAt(rounds)(i) == content;
      PushStep(messages, |rounds|, i, BatchAt(rounds), DetailMessages(rounds));
      messages := messages + [content];
      i := i + BatchSize;
    }
  }

  /** Pushing the value at `i` leaves the values from `i + 3` on still to come. */
  lemma PushStep<M>(done: seq<M>, n: nat, i: nat, render: nat -> M, total: seq<M>)
    requires i < n && done + Strided(n, i, render) == total
    ensures (done + [render(i)]) + Strided(n, i + BatchSize, render) == total
  {
    assert Strided(n, i, render) == [render(i)] + Strided(n, i + BatchSize, render);
    assert (done + [render(i)]) + Strided(n, i + BatchSize, render) == done + Strided(n, i, render);
  }

  /** The message of the batch starting at `i`: its heading, then each of its rounds in full. */
  method BatchContent(rounds: seq<Round>, i: nat) returns (content: Message)
    requires i < |rounds|
    ensures content == BatchText(rounds, i)
  {
    var end := Min(i + BatchSize, |rounds|);
    var batch := rounds[i..end];
    assert batch == Batch(rounds, i) && end == i + |batch|;
    var details := DetailRounds(batch);
    content := BatchHeader(i + 1, end) + details;
  }

  /** The rounds of a batch in full, one after another. */
  method DetailRounds(batch: seq<Round>) returns (details: Message)
    ensures details == BatchRounds(batch, |batch|)
  {
    details := [];
    var k := 0;
    while k < |batch|
      invariant 0 <= k <= |batch|
      invariant details == BatchRounds(batch, k)
    {
      var detail := DetailRound(batch[k]);
      BatchRoundsStep(batch, k);
      details := details + detail;
      k := k + 1;
    }
  }

  /** One round of a batch in full. */
  method DetailRound(r: Round) returns (lines: Message)
    ensures lines == RoundDetail(r)
  {
    lines := [RoundTitle(r.roundNumber), Content(r.storyContent), Blank];
    ghost var head := lines;
    if |r.options| > 0 {
      var entries := [];
      var j := 0;
      while j < |r.options|
        invariant 0 <= j <= |r.options|
        invariant entries == OptionLines(r.options, j)
      {
        OptionLinesStep(r.options, j);
        entries := entries + [OptionEntry(Letter(j), r.options[j])];
        j := j + 1;
      }
      lines := lines + [OptionsTitle] + entries + [Blank];
    }
    assert lines == head + OptionsBlock(r.options);
    if Truthy(r.userChoice) {
      lines := lines + [ChoiceMade(r.userChoice.value)];
      if Truthy(r.chosenBy) {
        lines := lines + [ChooserLine(r.chosenBy.value)];
      }
    }
    assert lines == head + OptionsBlock(r.options) + ChoiceBlock(r);
    lines := lines + [Blank, Separator, Blank];
  }

  // One more line or block on a prefix-built message, for the loops above.

  lemma CharacterLinesStep(entries: OrderedMap.Entries, mode: PlayMode, k: nat)
    requires k < |entries|
    ensures CharacterLines(entries, mode, k + 1)
      == CharacterLines(entries, mode, k) + [CharacterLine(entries[k].0, entries[k].1, mode)]
  {
  }

  lemma SummariesStep(recent: seq<Round>, k: nat)
    requires k < |recent|
    ensures Summaries(recent, k + 1) == Summaries(recent, k) + RoundSummary(recent[k])
  {
  }

  lemma BatchRoundsStep(batch: seq<Round>, k: nat)
    requires k < |batch|
    ensures BatchRounds(batch, k + 1) == BatchRounds(batch, k) + RoundDetail(batch[k])
  {
  }

  lemma OptionLinesStep(options: seq<string>, j: nat)
    requires j < |options|
    ensures OptionLines(options, j + 1) == OptionLines(options, j) + [OptionEntry(Letter(j), options[j])]
  {
  }
}
