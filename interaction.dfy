/**
 * `handleStoryChoice` and what follows it: the guard chain that decides
 * whether a button press is accepted, the write of the choice into the
 * round, and then either the next round or the ending.  The database is the
 * pair of story and round collections; the generator is the oracle of
 * `Generator.ResponseFor`.
 */
module Interaction {
  import opened Wrappers
  import opened StoryTypes
  import JsText
  import OrderedMap
  import Models
  import Generator
  import Segments

  /** Why a choice is turned away. */
  datatype Rejection =
    | NoActiveStory
    | RoundNotFound
    | AlreadyChosen
    | InvalidChoice
    | NotYourTurn(character: string, player: string)

  /** The guard chain's verdict: the story and round positions when accepted. */
  datatype Guard = Rejected(reason: Rejection) | Accepted(storyIndex: nat, roundIndex: nat)

  /**
   * The role-playing turn check: the round names a character whose assigned
   * player is someone other than the actor.  Consensus mode never blocks.
   */
  function Blocker(story: Story, round: Round, userId: string): Option<(string, string)> {
    if story.playMode == RolePlaying && Truthy(round.nextCharacterName) then
      var player := OrderedMap.Get(story.characters, round.nextCharacterName.value);
      if Truthy(player) && player.value != userId then Some((round.nextCharacterName.value, player.value))
      else None
    else None
  }

  /**
   * The guards of `handleStoryChoice`, in order: the chat's in-progress story,
   * the round with the pressed number, no choice made yet, the index within
   * the options, and the turn check.
   */
  function CheckChoice(
    stories: seq<Story>, rounds: seq<Round>, chatId: string, userId: string, roundNumber: int, choiceIndex: int)
    : (g: Guard)
    ensures g.Accepted? ==> g.storyIndex < |stories| && g.roundIndex < |rounds|
    ensures g.Accepted? ==> 0 <= choiceIndex < |rounds[g.roundIndex].options|
  {
    match Models.ActiveStoryIndex(stories, chatId)
    case None => Rejected(NoActiveStory)
    case Some(si) =>
      var story := stories[si];
      match Models.RoundIndex(rounds, story.storyId, roundNumber)
      case None => Rejected(RoundNotFound)
      case Some(ri) =>
        var round := rounds[ri];
        if Truthy(round.userChoice) then Rejected(AlreadyChosen)
        else if choiceIndex < 0 || choiceIndex >= |round.options| then Rejected(InvalidChoice)
        else match Blocker(story, round, userId)
          case Some((character, player)) => Rejected(NotYourTurn(character, player))
          case None => Accepted(si, ri)
  }

  /** The round after the write: the pressed option, or the button text when the option is empty, and the actor. */
  function Chosen(round: Round, choiceIndex: nat, choiceText: string, userId: string): (c: Round)
    requires choiceIndex < |round.options|
    ensures c.userChoice.Some?
  {
    var option := round.options[choiceIndex];
    round.(userChoice := Some(if option != "" then option else choiceText), chosenBy := Some(userId))
  }

  /** One line of the history: the narrative and the choice, `無` when none was made. */
  function HistoryEntry(r: Round): string {
    r.storyContent + "\n選擇: " + (if Truthy(r.userChoice) then r.userChoice.value else "無")
  }

  /** The history text: the entries joined by a blank line. */
  function History(rs: seq<Round>): string {
    JsText.Join(seq(|rs|, i requires 0 <= i < |rs| => HistoryEntry(rs[i])), "\n\n")
  }

  /** The history of a story's last `k` rounds, oldest first. */
  function RecentHistory(rounds: seq<Round>, storyId: string, k: nat): string {
    History(Models.LastRounds(Models.RoundsOf(rounds, storyId), k))
  }

  /** The words appended to the theme when the ending is asked for. */
  const EndingNote: string := " (這是故事的最終回合，請提供一個完整的結局)"

  /** The generation inputs of the next round: three rounds of history and the choice just made. */
  function NextParams(story: Story, previous: Round, rounds: seq<Round>): Generator.GenerationParams {
    Generator.GenerationParams(
      story.storyId, story.theme, OrderedMap.Keys(story.characters), story.genre,
      Some(RecentHistory(rounds, story.storyId, 3)), previous.userChoice, previous.nextCharacterName)
  }

  /** The generation inputs of the ending: five rounds of history and the marked theme. */
  function EndingParams(story: Story, last: Round, rounds: seq<Round>): Generator.GenerationParams {
    Generator.GenerationParams(
      story.storyId, story.theme + EndingNote, OrderedMap.Keys(story.characters), story.genre,
      Some(RecentHistory(rounds, story.storyId, 5)), last.userChoice, last.nextCharacterName)
  }

  /** The answer to the button press itself. */
  datatype ChoiceReply = Refused(reason: Rejection) | Confirmed(choice: string) | ChoiceError

  /** The message pushed afterwards, if any. */
  datatype FollowUp =
    | NoFollowUp
    | NextRoundError
    | SegmentSent(segment: Segments.Segment)
    | EndingSent(endingText: string, storyId: string, currentRound: int, totalRounds: int)
    | EndingFallback(storyId: string)

  /** The collections after a step, with the message it pushes. */
  datatype After = After(stories: seq<Story>, rounds: seq<Round>, follow: FollowUp)

  /**
   * `generateNextStorySegment` for the story at `si`, given what the
   * generator returned (`None` when it threw): the round numbered one past
   * the story's current round is stored, then the story moves to it.  A
   * failed generation or round save stores nothing; a refused story save
   * leaves the stored round behind.
   */
  function NextSegmentAfter(stories: seq<Story>, rounds: seq<Round>, si: nat, response: Option<StoryResponse>, now: int)
    : After
    requires si < |stories|
  {
    var story := stories[si];
    var next := story.currentRound + 1;
    match response
    case None => After(stories, rounds, NextRoundError)
    case Some(resp) =>
      var round := Models.GeneratedRound(story.storyId, next, resp);
      if !Models.RoundDocValid(round) then After(stories, rounds, NextRoundError)
      else
        var moved := story.(currentRound := next, updatedAt := now);
        if !Models.StoryDocValid(moved) then After(stories, rounds + [round], NextRoundError)
        else After(stories[si := moved], rounds + [round],
                   SegmentSent(Segments.BuildSegment(resp, next, story.playMode, Some(story.characters))))
  }

  /**
   * `handleStoryEnding` for the story at `si`, given what the generator
   * returned: once the ending is generated the story is completed;
   * otherwise, or when that save is refused, the fallback farewell is pushed
   * and the story stays as it was.
   */
  function EndingAfter(stories: seq<Story>, rounds: seq<Round>, si: nat, response: Option<StoryResponse>, now: int)
    : After
    requires si < |stories|
  {
    var story := stories[si];
    match response
    case None => After(stories, rounds, EndingFallback(story.storyId))
    case Some(resp) =>
      var done := story.(status := Completed, updatedAt := now);
      if !Models.StoryDocValid(done) then After(stories, rounds, EndingFallback(story.storyId))
      else After(stories[si := done], rounds,
                 EndingSent(resp.storyText, story.storyId, story.currentRound, story.totalRounds))
  }

  /** What follows a stored choice: the ending once the current round has reached the total, the next round otherwise. */
  function FollowingStep(
    stories: seq<Story>, rounds: seq<Round>, si: nat, chosen: Round, now: int,
    api: seq<Generator.Section> -> Generator.ApiReply, parse: string -> Option<Generator.RawRecord>): After
    requires si < |stories|
  {
    var story := stories[si];
    if story.currentRound >= story.totalRounds
    then EndingAfter(stories, rounds, si, Generator.ResponseFor(EndingParams(story, chosen, rounds), api, parse), now)
    else NextSegmentAfter(stories, rounds, si, Generator.ResponseFor(NextParams(story, chosen, rounds), api, parse), now)
  }

  /** The whole effect of a press: the collections afterwards, the reply and the pushed message. */
  datatype Effect = Effect(stories: seq<Story>, rounds: seq<Round>, reply: ChoiceReply, follow: FollowUp)

  /**
   * `handleStoryChoice`: a rejected press changes nothing; an accepted one
   * is written, then followed by the ending or the next round.
   */
  function ChoiceEffect(
    stories: seq<Story>, rounds: seq<Round>, chatId: string, userId: string, roundNumber: int,
    choiceIndex: int, choiceText: string, now: int,
    api: seq<Generator.Section> -> Generator.ApiReply, parse: string -> Option<Generator.RawRecord>): Effect
  {
    match CheckChoice(stories, rounds, chatId, userId, roundNumber, choiceIndex)
    case Rejected(reason) => Effect(stories, rounds, Refused(reason), NoFollowUp)
    case Accepted(si, ri) =>
      AcceptedEffect(stories, rounds, si, ri, Chosen(rounds[ri], choiceIndex, choiceText, userId), now, api, parse)
  }

  /**
   * An accepted press: the round at `ri` is saved with the choice (a refused
   * save is the error reply), the choice is confirmed and the following step runs.
   */
  function AcceptedEffect(
    stories: seq<Story>, rounds: seq<Round>, si: nat, ri: nat, chosen: Round, now: int,
    api: seq<Generator.Section> -> Generator.ApiReply, parse: string -> Option<Generator.RawRecord>): Effect
    requires si < |stories| && ri < |rounds| && chosen.userChoice.Some?
  {
    if !Models.RoundDocValid(chosen) then Effect(stories, rounds, ChoiceError, NoFollowUp)
    else
      var after := FollowingStep(stories, rounds[ri := chosen], si, chosen, now, api, parse);
      Effect(after.stories, after.rounds, Confirmed(chosen.userChoice.value), after.follow)
  }

  /**
   * The guards in their order, each exactly when the earlier ones pass: no
   * in-progress story of the chat, then no round of that story with the
   * number, then a choice already made, then an index outside the options,
   * then another player's turn, naming the character and its player.
   */
  lemma GuardOrder(
    stories: seq<Story>, rounds: seq<Round>, chatId: string, userId: string, roundNumber: int, choiceIndex: int)
    ensures var g := CheckChoice(stories, rounds, chatId, userId, roundNumber, choiceIndex);
      var si := Models.ActiveStoryIndex(stories, chatId);
      var ri := if si.Some? then Models.RoundIndex(rounds, stories[si.value].storyId, roundNumber) else None;
      && (g == Rejected(NoActiveStory) <==> si.None?)
      && (g == Rejected(RoundNotFound) <==> si.Some? && ri.None?)
      && (g == Rejected(AlreadyChosen) <==> si.Some? && ri.Some? && Truthy(rounds[ri.value].userChoice))
      && (g == Rejected(InvalidChoice) <==>
            si.Some? && ri.Some? && !Truthy(rounds[ri.value].userChoice)
            && (choiceIndex < 0 || choiceIndex >= |rounds[ri.value].options|))
      && (g.Rejected? && g.reason.NotYourTurn? <==>
            si.Some? && ri.Some? && !Truthy(rounds[ri.value].userChoice)
            && 0 <= choiceIndex < |rounds[ri.value].options|
            && Blocker(stories[si.value], rounds[ri.value], userId).Some?)
      && (g.Rejected? && g.reason.NotYourTurn? ==>
            var b := Blocker(stories[si.value], rounds[ri.value], userId).value;
            g.reason == NotYourTurn(b.0, b.1))
  {
  }

  /**
   * An accepted press names the chat's first in-progress story and the first
   * round with the pressed number, which has no choice yet, a valid index and
   * no other player's turn.
   */
  lemma AcceptedMeans(
    stories: seq<Story>, rounds: seq<Round>, chatId: string, userId: string, roundNumber: int, choiceIndex: int)
    requires CheckChoice(stories, rounds, chatId, userId, roundNumber, choiceIndex).Accepted?
    ensures var g := CheckChoice(stories, rounds, chatId, userId, roundNumber, choiceIndex);
      var story, round := stories[g.storyIndex], rounds[g.roundIndex];
      && Models.ActiveStoryIndex(stories, chatId) == Some(g.storyIndex)
      && story.chatId == chatId && story.status == InProgress
      && Models.RoundIndex(rounds, story.storyId, roundNumber) == Some(g.roundIndex)
      && round.story == story.storyId && round.roundNumber == roundNumber
      && !Truthy(round.userChoice)
      && 0 <= choiceIndex < |round.options|
      && Blocker(story, round, userId).None?
  {
  }

  /**
   * The turn check blocks exactly a role-playing round whose named character
   * has an assigned player other than the actor; consensus stories accept
   * any actor.
   */
  lemma TurnCheck(story: Story, round: Round, userId: string)
    ensures Blocker(story, round, userId).Some? <==>
      && story.playMode == RolePlaying && Truthy(round.nextCharacterName)
      && Truthy(OrderedMap.Get(story.characters, round.nextCharacterName.value))
      && OrderedMap.Get(story.characters, round.nextCharacterName.value).value != userId
    ensures story.playMode == Consensus ==> Blocker(story, round, userId).None?
    ensures Blocker(story, round, userId).Some? ==>
      (Blocker(story, round, userId).value.0, Blocker(story, round, userId).value.1) in story.characters
  {
  }

  /** A turned-away press changes nothing and pushes nothing. */
  lemma RejectionChangesNothing(
    stories: seq<Story>, rounds: seq<Round>, chatId: string, userId: string, roundNumber: int,
    choiceIndex: int, choiceText: string, now: int,
    api: seq<Generator.Section> -> Generator.ApiReply, parse: string -> Option<Generator.RawRecord>)
    requires CheckChoice(stories, rounds, chatId, userId, roundNumber, choiceIndex).Rejected?
    ensures var e := ChoiceEffect(stories, rounds, chatId, userId, roundNumber, choiceIndex, choiceText, now, api, parse);
      && e.stories == stories && e.rounds == rounds && e.follow == NoFollowUp
      && e.reply == Refused(CheckChoice(stories, rounds, chatId, userId, roundNumber, choiceIndex).reason)
  {
  }

  /**
   * The round the press writes keeps everything but the choice and the
   * chooser; the choice is the option unless it is empty, and a non-empty
   * choice closes the round to further presses.
   */
  lemma ChosenSpec(round: Round, choiceIndex: nat, choiceText: string, userId: string)
    requires choiceIndex < |round.options|
    ensures var c := Chosen(round, choiceIndex, choiceText, userId);
      && c.story == round.story && c.roundNumber == round.roundNumber
      && c.storyContent == round.storyContent && c.options == round.options
      && c.nextCharacterName == round.nextCharacterName
      && c.chosenBy == Some(userId) && c.userChoice.Some?
      && (round.options[choiceIndex] != "" ==> c.userChoice.value == round.options[choiceIndex])
      && (round.options[choiceIndex] == "" ==> c.userChoice.value == choiceText)
      && (Models.RoundDocValid(round) ==> Truthy(c.userChoice))
      && (Models.RoundDocValid(c) <==> Models.RoundDocValid(round))
  {
  }

  /**
   * Once a press on a stored round is written, pressing any button of that
   * round again is turned away as already chosen (or earlier in the chain).
   */
  lemma ChoiceClosesRound(
    stories: seq<Story>, rounds: seq<Round>, chatId: string, userId: string, roundNumber: int,
    choiceIndex: int, choiceText: string, otherUser: string, otherIndex: int)
    requires CheckChoice(stories, rounds, chatId, userId, roundNumber, choiceIndex).Accepted?
    requires var g := CheckChoice(stories, rounds, chatId, userId, roundNumber, choiceIndex);
      Models.RoundDocValid(rounds[g.roundIndex])
    ensures var g := CheckChoice(stories, rounds, chatId, userId, roundNumber, choiceIndex);
      var written := rounds[g.roundIndex := Chosen(rounds[g.roundIndex], choiceIndex, choiceText, userId)];
      CheckChoice(stories, written, chatId, otherUser, roundNumber, otherIndex) == Rejected(AlreadyChosen)
  {
    var g := CheckChoice(stories, rounds, chatId, userId, roundNumber, choiceIndex);
    var chosen := Chosen(rounds[g.roundIndex], choiceIndex, choiceText, userId);
    var written := rounds[g.roundIndex := chosen];
    AcceptedMeans(stories, rounds, chatId, userId, roundNumber, choiceIndex);
    ChosenSpec(rounds[g.roundIndex], choiceIndex, choiceText, userId);
    RoundIndexAfterWrite(rounds, g.roundIndex, chosen, stories[g.storyIndex].storyId, roundNumber);
  }

  /** Rewriting a found round with the same key keeps it the one found. */
  lemma {:induction false} RoundIndexAfterWrite(rounds: seq<Round>, i: nat, r: Round, story: string, roundNumber: int)
    requires Models.RoundIndex(rounds, story, roundNumber) == Some(i)
    requires r.story == story && r.roundNumber == roundNumber
    ensures Models.RoundIndex(rounds[i := r], story, roundNumber) == Some(i)
  {
    if i > 0 {
      assert rounds[i := r][1..] == rounds[1..][i - 1 := r];
      RoundIndexAfterWrite(rounds[1..], i - 1, r, story, roundNumber);
    }
  }

  /**
   * Any round of the active story that has no choice yet may be chosen, not
   * only the current one: in consensus mode a valid index is accepted
   * whatever the pressed round's number.
   */
  lemma AnyOpenRoundAccepted(
    stories: seq<Story>, rounds: seq<Round>, chatId: string, userId: string, roundNumber: int, choiceIndex: int)
    requires Models.ActiveStoryIndex(stories, chatId).Some?
    requires var story := stories[Models.ActiveStoryIndex(stories, chatId).value];
      && story.playMode == Consensus
      && Models.RoundIndex(rounds, story.storyId, roundNumber).Some?
      && var round := rounds[Models.RoundIndex(rounds, story.storyId, roundNumber).value];
      !Truthy(round.userChoice) && 0 <= choiceIndex < |round.options|
    ensures CheckChoice(stories, rounds, chatId, userId, roundNumber, choiceIndex).Accepted?
  {
  }

  /**
   * The next round is numbered one past the story's current round, whatever
   * round was pressed.  A failed generation stores nothing.  The segment is
   * sent exactly when the story moved, and then the new round is stored and
   * the current round has risen by exactly one, the story otherwise unchanged
   * but for its timestamp.
   */
  lemma NextRoundNumbering(stories: seq<Story>, rounds: seq<Round>, si: nat, response: Option<StoryResponse>, now: int)
    requires si < |stories|
    ensures var a := NextSegmentAfter(stories, rounds, si, response, now);
      var story := stories[si];
      && (response.None? ==> a == After(stories, rounds, NextRoundError))
      && (a.rounds != rounds ==>
            response.Some?
            && a.rounds == rounds + [Models.GeneratedRound(story.storyId, story.currentRound + 1, response.value)])
      && (a.follow.SegmentSent? <==> a.stories != stories)
      && (a.follow.SegmentSent? ==>
            && a.rounds != rounds
            && a.stories == stories[si := story.(currentRound := story.currentRound + 1, updatedAt := now)]
            && a.follow.segment.roundNumber == story.currentRound + 1)
      && (!a.follow.SegmentSent? ==> a.stories == stories && a.follow == NextRoundError)
  {
    var story := stories[si];
    var moved := story.(currentRound := story.currentRound + 1, updatedAt := now);
    assert stories[si := moved][si] != stories[si];
  }

  /**
   * The ending never touches the rounds; the story becomes completed exactly
   * when the ending text is generated and saved, and otherwise stays as it
   * was, so a failed ending leaves an in-progress story in progress.
   */
  lemma EndingSpec(stories: seq<Story>, rounds: seq<Round>, si: nat, response: Option<StoryResponse>, now: int)
    requires si < |stories|
    ensures var a := EndingAfter(stories, rounds, si, response, now);
      var done := stories[si].(status := Completed, updatedAt := now);
      && a.rounds == rounds
      && (a.follow.EndingSent? <==> response.Some? && Models.StoryDocValid(done))
      && (a.follow.EndingSent? ==> a.stories == stories[si := done])
      && (!a.follow.EndingSent? ==> a.stories == stories && a.follow == EndingFallback(stories[si].storyId))
  {
  }

  /** An accepted press is handled by `AcceptedEffect` with the written round. */
  lemma ChoiceAccepted(
    stories: seq<Story>, rounds: seq<Round>, chatId: string, userId: string, roundNumber: int,
    choiceIndex: int, choiceText: string, now: int,
    api: seq<Generator.Section> -> Generator.ApiReply, parse: string -> Option<Generator.RawRecord>,
    si: nat, ri: nat)
    requires CheckChoice(stories, rounds, chatId, userId, roundNumber, choiceIndex) == Accepted(si, ri)
    ensures ChoiceEffect(stories, rounds, chatId, userId, roundNumber, choiceIndex, choiceText, now, api, parse)
      == AcceptedEffect(stories, rounds, si, ri, Chosen(rounds[ri], choiceIndex, choiceText, userId), now, api, parse)
  {
  }

  /**
   * After an accepted press, a refused round save is the error reply and
   * changes nothing; otherwise the choice is confirmed, and the ending runs
   * exactly when the story's current round has reached the total.  Before
   * that, no story changes status.
   */
  lemma AcceptedFollowUp(
    stories: seq<Story>, rounds: seq<Round>, si: nat, ri: nat, chosen: Round, now: int,
    api: seq<Generator.Section> -> Generator.ApiReply, parse: string -> Option<Generator.RawRecord>)
    requires si < |stories| && ri < |rounds| && chosen.userChoice.Some?
    ensures var e := AcceptedEffect(stories, rounds, si, ri, chosen, now, api, parse);
      var story := stories[si];
      && (!Models.RoundDocValid(chosen) ==> e == Effect(stories, rounds, ChoiceError, NoFollowUp))
      && (Models.RoundDocValid(chosen) ==> e.reply == Confirmed(chosen.userChoice.value))
      && (e.follow.EndingSent? || e.follow.EndingFallback? <==>
            Models.RoundDocValid(chosen) && story.currentRound >= story.totalRounds)
      && (story.currentRound < story.totalRounds ==>
            |e.stories| == |stories| && forall i :: 0 <= i < |stories| ==> e.stories[i].status == stories[i].status)
  {
    var story := stories[si];
    if Models.RoundDocValid(chosen) {
      var written := rounds[ri := chosen];
      if story.currentRound < story.totalRounds {
        var response := Generator.ResponseFor(NextParams(story, chosen, written), api, parse);
        NextRoundNumbering(stories, written, si, response, now);
      } else {
        var response := Generator.ResponseFor(EndingParams(story, chosen, written), api, parse);
        EndingSpec(stories, written, si, response, now);
      }
    }
  }

  /**
   * The history is built from at most `k` of the story's rounds, oldest
   * first, and no round of the story left out is more recent than one used.
   */
  lemma {:induction false} RecentRoundsSpec(rounds: seq<Round>, storyId: string, k: nat)
    ensures var own := Models.RoundsOf(rounds, storyId);
      var used := Models.LastRounds(own, k);
      && |used| <= k && |used| <= |own|
      && Models.SortedByNumber(used)
      && (forall i :: 0 <= i < |used| ==> used[i].story == storyId && used[i] in rounds)
      && (forall r :: r in own && r !in used ==>
            forall j :: 0 <= j < |used| ==> r.roundNumber <= used[j].roundNumber)
  {
    var own := Models.RoundsOf(rounds, storyId);
    Models.LastRoundsSpec(own, k);
    var used := Models.LastRounds(own, k);
    assert forall i :: 0 <= i < |used| ==> used[i] in own;
  }

  /**
   * `handleStoryChoice` over the collections: the guards in the source's
   * order, then the write and what follows it.
   */
  method HandleStoryChoice(
    chatId: string, userId: string, roundNumber: int, choiceIndex: int, choiceText: string, now: int,
    api: seq<Generator.Section> -> Generator.ApiReply, parse: string -> Option<Generator.RawRecord>,
    db: Models.Db)
    returns (reply: ChoiceReply, follow: FollowUp)
    modifies db
    // The cost log written by each generation call (`logApiCost`) is not modelled.
    ensures db.apiLogs == old(db.apiLogs)
    ensures Effect(db.stories, db.rounds, reply, follow)
      == ChoiceEffect(old(db.stories), old(db.rounds), chatId, userId, roundNumber, choiceIndex, choiceText, now, api, parse)
  {
    follow := NoFollowUp;
    var si := Models.ActiveStoryIndex(db.stories, chatId);
    if si.None? {
      return Refused(NoActiveStory), follow;
    }
    var story := db.stories[si.value];
    var ri := Models.RoundIndex(db.rounds, story.storyId, roundNumber);
    if ri.None? {
      return Refused(RoundNotFound), follow;
    }
    var round := db.rounds[ri.value];
    if Truthy(round.userChoice) {
      return Refused(AlreadyChosen), follow;
    }
    if choiceIndex < 0 || choiceIndex >= |round.options| {
      return Refused(InvalidChoice), follow;
    }
    if story.playMode == RolePlaying && Truthy(round.nextCharacterName) {
      var player := OrderedMap.Get(story.characters, round.nextCharacterName.value);
      if Truthy(player) && player.value != userId {
        return Refused(NotYourTurn(round.nextCharacterName.value, player.value)), follow;
      }
    }
    assert CheckChoice(db.stories, db.rounds, chatId, userId, roundNumber, choiceIndex) == Accepted(si.value, ri.value);
    ChoiceAccepted(db.stories, db.rounds, chatId, userId, roundNumber, choiceIndex, choiceText, now, api, parse,
                   si.value, ri.value);
    reply, follow := ApplyChoice(si.value, ri.value, Chosen(round, choiceIndex, choiceText, userId), now, api, parse, db);
  }

  /** The write of an accepted choice and the step after it; its effect is `AcceptedEffect`. */
  method ApplyChoice(
    si: nat, ri: nat, chosen: Round, now: int,
    api: seq<Generator.Section> -> Generator.ApiReply, parse: string -> Option<Generator.RawRecord>,
    db: Models.Db)
    returns (reply: ChoiceReply, follow: FollowUp)
    requires si < |db.stories| && ri < |db.rounds| && chosen.userChoice.Some?
    modifies db
    // The cost log written by each generation call (`logApiCost`) is not modelled.
    ensures db.apiLogs == old(db.apiLogs)
    ensures Effect(db.stories, db.rounds, reply, follow)
      == AcceptedEffect(old(db.stories), old(db.rounds), si, ri, chosen, now, api, parse)
  {
    var ok := db.UpdateRound(ri, chosen);
    if !ok {
      return ChoiceError, NoFollowUp;
    }
    reply := Confirmed(chosen.userChoice.value);
    var story := db.stories[si];
    if story.currentRound >= story.totalRounds {
      follow := HandleStoryEnding(si, chosen, now, api, parse, db);
    } else {
      follow := GenerateNextStorySegment(si, chosen, now, api, parse, db);
    }
  }

  /** `generateNextStorySegment`: its effect is `NextSegmentAfter` of what the generator returns. */
  method GenerateNextStorySegment(
    si: nat, previous: Round, now: int,
    api: seq<Generator.Section> -> Generator.ApiReply, parse: string -> Option<Generator.RawRecord>,
    db: Models.Db)
    returns (follow: FollowUp)
    requires si < |db.stories|
    modifies db
    // The cost log written by each generation call (`logApiCost`) is not modelled.
    ensures db.apiLogs == old(db.apiLogs)
    ensures After(db.stories, db.rounds, follow) == NextSegmentAfter(
      old(db.stories), old(db.rounds), si,
      Generator.ResponseFor(NextParams(old(db.stories)[si], previous, old(db.rounds)), api, parse), now)
  {
    var response := Generator.GenerateStorySegment(NextParams(db.stories[si], previous, db.rounds), api, parse);
    follow := StoreNextRound(si, response, now, db);
  }

  /** Stores the generated round and moves the story on; its effect is `NextSegmentAfter`. */
  method StoreNextRound(si: nat, response: Option<StoryResponse>, now: int, db: Models.Db)
    returns (follow: FollowUp)
    requires si < |db.stories|
    modifies db
    ensures db.apiLogs == old(db.apiLogs)
    ensures After(db.stories, db.rounds, follow) == NextSegmentAfter(old(db.stories), old(db.rounds), si, response, now)
  {
    var story := db.stories[si];
    var next := story.currentRound + 1;
    if response.None? {
      return NextRoundError;
    }
    var ok := db.InsertRound(Models.GeneratedRound(story.storyId, next, response.value));
    if !ok {
      return NextRoundError;
    }
    ok := db.UpdateStory(si, story.(currentRound := next, updatedAt := now));
    if !ok {
      return NextRoundError;
    }
    follow := SegmentSent(Segments.BuildSegment(response.value, next, story.playMode, Some(story.characters)));
  }

  /** `handleStoryEnding`: its effect is `EndingAfter` of what the generator returns. */
  method HandleStoryEnding(
    si: nat, last: Round, now: int,
    api: seq<Generator.Section> -> Generator.ApiReply, parse: string -> Option<Generator.RawRecord>,
    db: Models.Db)
    returns (follow: FollowUp)
    requires si < |db.stories|
    modifies db
    // The cost log written by each generation call (`logApiCost`) is not modelled.
    ensures db.apiLogs == old(db.apiLogs)
    ensures After(db.stories, db.rounds, follow) == EndingAfter(
      old(db.stories), old(db.rounds), si,
      Generator.ResponseFor(EndingParams(old(db.stories)[si], last, old(db.rounds)), api, parse), now)
  {
    var response := Generator.GenerateStorySegment(EndingParams(db.stories[si], last, db.rounds), api, parse);
    follow := CompleteStory(si, response, now, db);
  }

  /** Marks the story completed when the ending was generated; its effect is `EndingAfter`. */
  method CompleteStory(si: nat, response: Option<StoryResponse>, now: int, db: Models.Db)
    returns (follow: FollowUp)
    requires si < |db.stories|
    modifies db
    ensures db.apiLogs == old(db.apiLogs)
    ensures After(db.stories, db.rounds, follow) == EndingAfter(old(db.stories), old(db.rounds), si, response, now)
  {
    var story := db.stories[si];
    if response.None? {
      return EndingFallback(story.storyId);
    }
    var ok := db.UpdateStory(si, story.(status := Completed, updatedAt := now));
    if !ok {
      return EndingFallback(story.storyId);
    }
    follow := EndingSent(response.value.storyText, story.storyId, story.currentRound, story.totalRounds);
  }
}
