/**
 * The story-creation wizard: a per-chat creation state advanced one step per
 * input (mode, theme, characters, one assignment per character in
 * role-playing mode, genre, round count, confirmation).  Confirmation
 * either discards the state or stores a new story and generates its first
 * round.
 */
module Creation {
  import opened Wrappers
  import opened StoryTypes
  import JsText
  import JsNumber
  import OrderedMap
  import Models
  import StoryId
  import Generator
  import Segments
  import Metrics

  /** The trimmed, non-empty names among the pieces, in order. */
  function CleanNames(pieces: seq<string>): (names: seq<string>)
    ensures forall k :: 0 <= k < |names| ==> names[k] != [] && JsText.IsTrimmed(names[k])
    ensures |names| <= |pieces|
  {
    if pieces == [] then []
    else
      var t := JsText.Trim(pieces[0]);
      JsText.TrimIsTrimmed(pieces[0]);
      (if t == [] then [] else [t]) + CleanNames(pieces[1..])
  }

  /** `text.split(',').map(trim).filter(non-empty)`. */
  function ParseCharacters(text: string): (names: seq<string>)
    ensures forall k :: 0 <= k < |names| ==> names[k] != [] && JsText.IsTrimmed(names[k])
  {
    CleanNames(JsText.Split(text, ','))
  }

  /** No cleaned name holds a separator that none of the pieces holds. */
  lemma {:induction false} CleanNamesHaveNoComma(pieces: seq<string>)
    requires forall k :: 0 <= k < |pieces| ==> ',' !in pieces[k]
    ensures forall k :: 0 <= k < |CleanNames(pieces)| ==> ',' !in CleanNames(pieces)[k]
  {
    if pieces != [] {
      CleanNamesHaveNoComma(pieces[1..]);
      JsText.TrimKeepsOut(pieces[0], ',');
    }
  }

  /** Every piece is white space only. */
  predicate AllBlank(pieces: seq<string>) {
    forall k :: 0 <= k < |pieces| ==> JsText.AllSpace(pieces[k])
  }

  /** The list is empty exactly when every comma-separated piece is white space only. */
  lemma {:induction false} CleanNamesEmptyIff(pieces: seq<string>)
    ensures CleanNames(pieces) == [] <==> AllBlank(pieces)
  {
    if pieces != [] {
      CleanNamesEmptyIff(pieces[1..]);
      JsText.TrimEmptyIff(pieces[0]);
      assert forall k :: 1 <= k < |pieces| ==> pieces[k] == pieces[1..][k - 1];
    }
  }

  /**
   * Every parsed name is non-empty, trimmed and free of commas, and there is
   * none exactly when the text is commas and white space only.
   */
  lemma ParseCharactersSpec(text: string)
    ensures forall k :: 0 <= k < |ParseCharacters(text)| ==> ',' !in ParseCharacters(text)[k]
    ensures ParseCharacters(text) == [] <==> AllBlank(JsText.Split(text, ','))
  {
    var pieces := JsText.Split(text, ',');
    assert ParseCharacters(text) == CleanNames(pieces);
    CleanNamesHaveNoComma(pieces);
    CleanNamesEmptyIff(pieces);
  }

  /** Names fit for a list: non-empty, trimmed, without commas. */
  predicate PlainNames(names: seq<string>) {
    forall k :: 0 <= k < |names| ==> names[k] != [] && JsText.IsTrimmed(names[k]) && ',' !in names[k]
  }

  /** Cleaning a list that starts with a piece cleans that piece first. */
  lemma CleanNamesCons(piece: string, rest: seq<string>)
    ensures CleanNames([piece] + rest)
      == (if JsText.Trim(piece) == [] then [] else [JsText.Trim(piece)]) + CleanNames(rest)
  {
    assert ([piece] + rest)[1..] == rest;
  }

  /** Leading white space before a plain name trims away. */
  lemma TrimPaddedName(w: string, name: string)
    requires JsText.AllSpace(w) && name != [] && JsText.IsTrimmed(name)
    ensures JsText.Trim(w + name) == name
  {
    JsText.TrimSkipsLeadingSpace(w, name);
    JsText.TrimOfTrimmed(name);
  }

  /** White space alone names no character. */
  lemma ParseBlank(w: string)
    requires JsText.AllSpace(w) && ',' !in w
    ensures ParseCharacters(w) == []
  {
    JsText.SplitNoSeparator(w, ',');
    JsText.TrimEmptyIff(w);
    CleanNamesCons(w, []);
  }

  /** One plain name after white space is that name. */
  lemma ParseSingleName(w: string, name: string)
    requires JsText.AllSpace(w) && ',' !in w
    requires name != [] && JsText.IsTrimmed(name) && ',' !in name
    ensures ParseCharacters(w + name) == [name]
  {
    var padded := w + name;
    TrimPaddedName(w, name);
    assert ',' !in padded;
    JsText.SplitNoSeparator(padded, ',');
    assert JsText.Split(padded, ',') == [padded] + [];
    CleanNamesCons(padded, []);
  }

  /**
   * Parsing the list the way it is displayed, joined by ", ", gives the same
   * names back, even after leading white space.
   */
  lemma {:induction false} ParseJoinedCharacters(w: string, names: seq<string>)
    requires JsText.AllSpace(w) && ',' !in w
    requires PlainNames(names)
    ensures ParseCharacters(w + JsText.Join(names, ", ")) == names
    decreases |names|
  {
    if names == [] {
      assert w + JsText.Join(names, ", ") == w;
      ParseBlank(w);
    } else if |names| == 1 {
      assert w + JsText.Join(names, ", ") == w + names[0];
      ParseSingleName(w, names[0]);
    } else {
      assert JsText.AllSpace(" ");
      assert PlainNames(names[1..]);
      ParseJoinedCharacters(" ", names[1..]);
      ParseJoinedStep(w, names);
    }
  }

  /** The displayed list is its first name, a comma, and the rest after a space. */
  lemma JoinedHead(w: string, names: seq<string>)
    requires |names| >= 2
    ensures w + JsText.Join(names, ", ") == (w + names[0]) + [','] + (" " + JsText.Join(names[1..], ", "))
  {
    var tail := JsText.Join(names[1..], ", ");
    assert JsText.Join(names, ", ") == names[0] + ", " + tail;
  }

  /** A piece before the first comma contributes its trim, when non-empty, ahead of the rest. */
  lemma {:induction false} ParseAtFirstComma(whole: string, head: string, rest: string)
    requires whole == head + [','] + rest
    requires ',' !in head && JsText.Trim(head) != []
    ensures ParseCharacters(whole) == [JsText.Trim(head)] + ParseCharacters(rest)
  {
    var pieces := JsText.Split(rest, ',');
    JsText.SplitAtFirst(head, ',', rest);
    assert JsText.Split(whole, ',') == [head] + pieces;
    CleanNamesCons(head, pieces);
  }

  /** One name and a comma in front of a list that already parses back. */
  lemma {:induction false} ParseJoinedStep(w: string, names: seq<string>)
    requires JsText.AllSpace(w) && ',' !in w
    requires PlainNames(names) && |names| >= 2
    requires ParseCharacters(" " + JsText.Join(names[1..], ", ")) == names[1..]
    ensures ParseCharacters(w + JsText.Join(names, ", ")) == names
  {
    var name, tail := names[0], names[1..];
    var rest := " " + JsText.Join(tail, ", ");
    JoinedHead(w, names);
    PaddedName(w, name);
    ParseAtFirstComma(w + JsText.Join(names, ", "), w + name, rest);
    assert names == [name] + tail;
  }

  /** A plain name after white space is a comma-free piece that trims to the name. */
  lemma PaddedName(w: string, name: string)
    requires JsText.AllSpace(w) && ',' !in w
    requires name != [] && JsText.IsTrimmed(name) && ',' !in name
    ensures ',' !in w + name && JsText.Trim(w + name) == name
  {
    TrimPaddedName(w, name);
  }

  /** `chatId.startsWith('C') || chatId.startsWith('R')`: group and room ids. */
  predicate IsGroupChat(chatId: string) {
    JsText.StartsWith(chatId, "C") || JsText.StartsWith(chatId, "R")
  }

  /** The entry `startStoryCreation` stores. */
  function InitialState(chatId: string): (s: CreationState)
    ensures IsGroupChat(chatId) ==> s == StepOnly(ModeSelection)
    ensures !IsGroupChat(chatId) ==> s == StepOnly(ThemeInput).(playMode := Some(Consensus))
  {
    if IsGroupChat(chatId) then StepOnly(ModeSelection)
    else StepOnly(ThemeInput).(playMode := Some(Consensus))
  }

  /** One inbound input for the wizard, apart from confirmation. */
  datatype Input =
    | ModeChosen(mode: PlayMode)
    | ThemeText(theme: string)
    | CharacterText(text: string)
    | Assigned(character: string, userId: string)
    | GenreChosen(genre: StoryGenre)
    | RoundsText(text: string)

  /** The step at which each input is accepted. */
  function ExpectedStep(input: Input): CreationStep {
    match input
    case ModeChosen(_) => ModeSelection
    case ThemeText(_) => ThemeInput
    case CharacterText(_) => CharacterInput
    case Assigned(_, _) => CharacterAssignment
    case GenreChosen(_) => GenreSelection
    case RoundsText(_) => RoundsSetting
  }

  /** What the wizard says back; wording is not modelled. */
  datatype Reply =
    | NoReply
    | AskMode
    | AskTheme
    | AskCharacters
    | NoCharactersGiven
    | AskAssignment(ordinal: int, character: Option<string>)
    | AskGenre(genres: seq<StoryGenre>)
    | AskRounds
    | BadRounds
    | ConfirmSummary(
        mode: PlayMode, theme: string, charactersText: string, assignments: OrderedMap.Entries,
        genre: StoryGenre, totalRounds: int)
    | RestartNotice
    | StoryCreated(storyId: string)
    | CreationFailed

  /** `showConfirmation`: nothing when theme, characters, genre or round count is missing or falsy. */
  function Summary(s: CreationState): Reply {
    if !Truthy(s.theme) || s.characters.None? || s.genre.None? || s.totalRounds.None? || s.totalRounds.value == 0
    then NoReply
    else ConfirmSummary(
      if s.playMode == Some(Consensus) then Consensus else RolePlaying,
      s.theme.value, JsText.Join(s.characters.value, ", "),
      if s.characterAssignments.Some? then s.characterAssignments.value else [],
      s.genre.value, s.totalRounds.value)
  }

  /** `parseInt(text.trim())` within [5, 100]. */
  function RoundCount(text: string): (n: Option<int>)
    ensures n.Some? ==> Models.MinTotalRounds <= n.value <= Models.MaxTotalRounds
  {
    match JsNumber.ParseInt(JsText.Trim(text))
    case Some(v) => if v < Models.MinTotalRounds || v > Models.MaxTotalRounds then None else Some(v)
    case None => None
  }

  datatype Outcome = Outcome(next: CreationState, reply: Reply)

  /**
   * The step handlers' effect on a present entry: an input at the wrong step,
   * or an assignment before the lists exist, changes nothing and says nothing.
   */
  function Handle(s: CreationState, input: Input): Outcome {
    if s.step != ExpectedStep(input) then Outcome(s, NoReply)
    else match input
      case ModeChosen(mode) => Outcome(s.(playMode := Some(mode), step := ThemeInput), AskTheme)
      case ThemeText(theme) => Outcome(s.(theme := Some(theme), step := CharacterInput), AskCharacters)
      case CharacterText(text) => CharactersGiven(s, ParseCharacters(text))
      case Assigned(character, userId) => CharacterAssigned(s, character, userId)
      case GenreChosen(genre) => Outcome(s.(genre := Some(genre), step := RoundsSetting), AskRounds)
      case RoundsText(text) => RoundsGiven(s, text)
  }

  /** `handleCharacterInput` past its step guard. */
  function CharactersGiven(s: CreationState, names: seq<string>): Outcome {
    if names == [] then Outcome(s, NoCharactersGiven)
    else if s.playMode == Some(RolePlaying) then
      Outcome(s.(characters := Some(names), step := CharacterAssignment,
                 characterAssignments := Some([]), currentAssignmentIndex := Some(0)),
              AskAssignment(1, Some(names[0])))
    else Outcome(s.(characters := Some(names), step := GenreSelection), AskGenre(AllGenres))
  }

  /** `handleCharacterAssignment` past its step guard. */
  function CharacterAssigned(s: CreationState, character: string, userId: string): Outcome {
    if s.characterAssignments.None? || s.characters.None? then Outcome(s, NoReply)
    else
      var assignments := OrderedMap.Set(s.characterAssignments.value, character, userId);
      var index := s.currentAssignmentIndex.GetOr(0) + 1;
      var names := s.characters.value;
      var t := s.(characterAssignments := Some(assignments), currentAssignmentIndex := Some(index));
      if index >= |names| then Outcome(t.(step := GenreSelection), AskGenre(AllGenres))
      else Outcome(t, AskAssignment(index + 1, if 0 <= index then Some(names[index]) else None))
  }

  /** `handleRoundsInput` past its step guard. */
  function RoundsGiven(s: CreationState, text: string): Outcome {
    match RoundCount(text)
    case None => Outcome(s, BadRounds)
    case Some(n) =>
      var t := s.(totalRounds := Some(n), step := Confirmation);
      Outcome(t, Summary(t))
  }

  /** At its step, the character text goes to `CharactersGiven`. */
  lemma HandleCharacters(s: CreationState, text: string)
    requires s.step == CharacterInput
    ensures Handle(s, CharacterText(text)) == CharactersGiven(s, ParseCharacters(text))
  {
  }

  /** Characters keep the step or move to the assignments or the genre. */
  lemma CharactersGivenSteps(s: CreationState, names: seq<string>)
    requires s.step == CharacterInput
    ensures var t := CharactersGiven(s, names).next.step;
      t == CharacterInput || t == CharacterAssignment || t == GenreSelection
  {
  }

  /** At its step, an assignment goes to `CharacterAssigned`. */
  lemma HandleAssignment(s: CreationState, character: string, userId: string)
    requires s.step == CharacterAssignment
    ensures Handle(s, Assigned(character, userId)) == CharacterAssigned(s, character, userId)
  {
  }

  /** At its step, the round-count text goes to `RoundsGiven`. */
  lemma HandleRounds(s: CreationState, text: string)
    requires s.step == RoundsSetting
    ensures Handle(s, RoundsText(text)) == RoundsGiven(s, text)
  {
  }

  /** The order of the steps. */
  function Rank(step: CreationStep): nat {
    match step
    case ModeSelection => 0
    case ThemeInput => 1
    case CharacterInput => 2
    case CharacterAssignment => 3
    case GenreSelection => 4
    case RoundsSetting => 5
    case Confirmation => 6
    case CompletedStep => 7
  }

  /** A handler acts only at its own step: elsewhere it changes nothing and says nothing. */
  lemma HandleIgnoresOtherSteps(s: CreationState, input: Input)
    requires s.step != ExpectedStep(input)
    ensures Handle(s, input) == Outcome(s, NoReply)
  {
  }

  /**
   * At its own step a handler stays or moves forward, at most two steps
   * (role-playing characters skip nothing, other modes skip the
   * assignments); nothing reaches the declared `completed` step.
   */
  lemma {:induction false} HandleAdvances(s: CreationState, input: Input)
    requires s.step == ExpectedStep(input)
    ensures var n := Handle(s, input).next;
      && Rank(s.step) <= Rank(n.step) <= Rank(s.step) + 2
      && n.step != CompletedStep
  {
    match input
    case ModeChosen(_) =>
    case ThemeText(_) =>
    case CharacterText(text) => CharacterInputMoves(s, text);
    case Assigned(character, userId) => AssignmentMoves(s, character, userId);
    case GenreChosen(_) =>
    case RoundsText(text) => RoundsInputMoves(s, text);
  }

  /** Character text keeps the step or moves to the assignments or to the genre. */
  lemma CharacterInputMoves(s: CreationState, text: string)
    requires s.step == CharacterInput
    ensures var t := Handle(s, CharacterText(text)).next.step;
      t == CharacterInput || t == CharacterAssignment || t == GenreSelection
  {
    HandleCharacters(s, text);
    CharactersGivenSteps(s, ParseCharacters(text));
  }

  /** An assignment keeps the step or moves to the genre. */
  lemma AssignmentMoves(s: CreationState, character: string, userId: string)
    requires s.step == CharacterAssignment
    ensures var t := Handle(s, Assigned(character, userId)).next.step;
      t == CharacterAssignment || t == GenreSelection
  {
    HandleAssignment(s, character, userId);
  }

  /** Round-count text keeps the step or moves to confirmation. */
  lemma RoundsInputMoves(s: CreationState, text: string)
    requires s.step == RoundsSetting
    ensures var t := Handle(s, RoundsText(text)).next.step;
      t == RoundsSetting || t == Confirmation
  {
    HandleRounds(s, text);
  }

  /**
   * Characters are accepted exactly when the parsed list is non-empty; then
   * role-playing starts the assignments with an empty map at position 0, and
   * any other mode goes straight to the genre.
   */
  lemma CharacterInputSpec(s: CreationState, text: string)
    requires s.step == CharacterInput
    ensures var o := Handle(s, CharacterText(text));
      && (ParseCharacters(text) == [] <==> o == Outcome(s, NoCharactersGiven))
      && (ParseCharacters(text) != [] ==> o.next.characters == Some(ParseCharacters(text)))
      && (ParseCharacters(text) != [] && s.playMode == Some(RolePlaying) ==>
            o.next.step == CharacterAssignment && o.next.characterAssignments == Some([])
            && o.next.currentAssignmentIndex == Some(0))
      && (ParseCharacters(text) != [] && s.playMode != Some(RolePlaying) ==> o.next.step == GenreSelection)
  {
    HandleCharacters(s, text);
  }

  /**
   * An assignment records the supplied character and player, keeps every
   * other assignment, advances the position by one, and moves to the genre
   * exactly when the position reaches the number of characters.
   */
  lemma AssignmentSpec(s: CreationState, character: string, userId: string, other: string)
    requires s.step == CharacterAssignment && s.characterAssignments.Some? && s.characters.Some?
    ensures var n := Handle(s, Assigned(character, userId)).next;
      && n.characterAssignments.Some?
      && OrderedMap.Get(n.characterAssignments.value, character) == Some(userId)
      && (other != character ==>
            OrderedMap.Get(n.characterAssignments.value, other) == OrderedMap.Get(s.characterAssignments.value, other))
      && n.currentAssignmentIndex == Some(s.currentAssignmentIndex.GetOr(0) + 1)
      && (n.step == GenreSelection <==> s.currentAssignmentIndex.GetOr(0) + 1 >= |s.characters.value|)
  {
    HandleAssignment(s, character, userId);
    OrderedMap.GetAfterSet(s.characterAssignments.value, character, userId, character);
    OrderedMap.GetAfterSet(s.characterAssignments.value, character, userId, other);
  }

  /**
   * A round count that is read (see `RoundCount`) is stored, and the step
   * becomes confirmation.
   */
  lemma RoundsInputAccepted(s: CreationState, text: string)
    requires s.step == RoundsSetting && RoundCount(text).Some?
    ensures Handle(s, RoundsText(text)).next == s.(totalRounds := RoundCount(text), step := Confirmation)
  {
    HandleRounds(s, text);
  }

  /** Any other round-count text leaves the state as it was and asks again. */
  lemma RoundsInputRefused(s: CreationState, text: string)
    requires s.step == RoundsSetting && RoundCount(text).None?
    ensures Handle(s, RoundsText(text)) == Outcome(s, BadRounds)
  {
    HandleRounds(s, text);
  }

  /** White space around the count is ignored. */
  lemma RoundCountIgnoresSpace(text: string)
    ensures RoundCount(text) == RoundCount(JsText.Trim(text))
  {
    JsText.TrimIsTrimmed(text);
    JsText.TrimOfTrimmed(JsText.Trim(text));
  }

  /** The text of any integer is read back as that count exactly when it lies in [5, 100]. */
  lemma RoundCountOfNumber(n: int)
    ensures RoundCount(JsNumber.IntText(n)) == if 5 <= n <= 100 then Some(n) else None
  {
    JsNumber.IntTextTrimmed(n);
    JsNumber.IntTextParses(n);
  }

  /** Text whose first non-space character is neither a sign nor a decimal digit is refused. */
  lemma RoundCountNotANumber(text: string)
    requires var t := JsText.Trim(text);
      t != [] && t[0] != '+' && t[0] != '-' && !('0' <= t[0] <= '9')
    ensures RoundCount(text).None?
  {
    var t := JsText.Trim(text);
    JsText.TrimIsTrimmed(text);
    JsNumber.ParseIntRefuses(t);
  }

  /**
   * The wizard's standing invariant: assignments exist only in role-playing
   * mode, with distinct characters, and never before a mode is chosen.
   */
  predicate WellFormed(s: CreationState) {
    && (s.characterAssignments.Some? ==>
          s.playMode == Some(RolePlaying) && OrderedMap.DistinctKeys(s.characterAssignments.value))
    && (s.step == ModeSelection ==> s.characterAssignments.None?)
  }

  /** A fresh entry satisfies the invariant: no assignments yet. */
  lemma InitialStateWellFormed(chatId: string)
    ensures WellFormed(InitialState(chatId))
    ensures InitialState(chatId).characterAssignments.None?
  {
  }

  /** Every handler keeps the invariant. */
  lemma HandleKeepsWellFormed(s: CreationState, input: Input)
    requires WellFormed(s)
    ensures WellFormed(Handle(s, input).next)
  {
    if s.step == CharacterAssignment && input.Assigned? && s.characterAssignments.Some? && s.characters.Some? {
      OrderedMap.SetKeepsDistinct(s.characterAssignments.value, input.character, input.userId);
    }
  }

  /** Whether `createStory` proceeds: theme, characters, genre, mode and round count all truthy. */
  predicate CreateReady(s: CreationState) {
    Truthy(s.theme) && s.characters.Some? && s.genre.Some? && s.playMode.Some?
    && s.totalRounds.Some? && s.totalRounds.value != 0
  }

  /** The story `createStory` builds: its characters are exactly the assignments, none if there are none. */
  function StoryFromState(chatId: string, s: CreationState, storyId: string, now: int): Story
    requires CreateReady(s)
  {
    Models.NewStory(
      storyId, chatId, s.theme.value, Some(s.characterAssignments.GetOr([])), s.totalRounds,
      s.genre.value, s.playMode.value, now)
  }

  /**
   * A story built at confirmation starts at round 0 in progress with the
   * chosen settings, plays the assigned characters, and in consensus mode has
   * no characters at all.  It saves exactly when its ids are present, its
   * round count is in range and every assigned name is a key the `characters`
   * Map accepts.
   */
  lemma StoryFromStateSpec(chatId: string, s: CreationState, storyId: string, now: int)
    requires CreateReady(s) && WellFormed(s)
    ensures var story := StoryFromState(chatId, s, storyId, now);
      && story.currentRound == 0 && story.status == InProgress
      && story.theme == s.theme.value && story.genre == s.genre.value && story.playMode == s.playMode.value
      && story.totalRounds == s.totalRounds.value && story.storyId == storyId && story.chatId == chatId
      && story.createdAt == now && story.updatedAt == now
      && (s.playMode == Some(Consensus) ==> story.characters == [])
      && (s.characterAssignments.Some? ==> story.characters == s.characterAssignments.value)
      && (Models.StoryDocValid(story) <==>
            storyId != "" && chatId != "" && 5 <= s.totalRounds.value <= 100
            && Models.MapKeysAllowed(story.characters))
  {
  }

  /**
   * The for-of loop copying the assignment map into a fresh map for the
   * story: since a map's keys are distinct, the copy equals the original.
   */
  method CopyAssignments(source: OrderedMap.Entries) returns (copy: OrderedMap.Entries)
    requires OrderedMap.DistinctKeys(source)
    ensures copy == source
  {
    copy := [];
    var i := 0;
    while i < |source|
      invariant 0 <= i <= |source|
      invariant copy == source[..i]
    {
      var (character, userId) := source[i];
      assert character !in OrderedMap.Keys(copy) by {
        forall k | 0 <= k < i ensures OrderedMap.Keys(copy)[k] != character {
          assert OrderedMap.Keys(copy)[k] == source[k].0;
        }
      }
      OrderedMap.SetNewKeyAppends(copy, character, userId);
      copy := OrderedMap.Set(copy, character, userId);
      assert source[..i + 1] == source[..i] + [source[i]];
      i := i + 1;
    }
    assert source[..|source|] == source;
  }

  /**
   * How `generateFirstStorySegment` ends.  An incomplete state and a missing
   * story are only logged; a failed generation or a refused save ends in the
   * error push; otherwise the segment is sent.  `NotRun` is a creation that
   * never reached the step.
   */
  datatype FirstSegment =
    | NotRun
    | Skipped
    | GenerationErrorNotice
    | StoryMissing
    | SegmentSent(segment: Segments.Segment)

  /** The first round a generation reply becomes. */
  function FirstRound(storyId: string, response: StoryResponse): Round {
    Round(storyId, 1, response.storyText, response.options, None, None, Some(response.nextCharacterName))
  }

  /** The generation inputs of the first round: no history, no previous action. */
  function FirstParams(storyId: string, s: CreationState): Generator.GenerationParams
    requires s.theme.Some? && s.characters.Some? && s.genre.Some?
  {
    Generator.GenerationParams(storyId, s.theme.value, s.characters.value, s.genre.value, None, None, None)
  }

  /** The collections after `generateFirstStorySegment`, with how it ended. */
  datatype FirstEffect = FirstEffect(stories: seq<Story>, rounds: seq<Round>, first: FirstSegment)

  /**
   * `generateFirstStorySegment` over the collections: skipped on an
   * incomplete state; nothing stored when generation fails, the story is
   * gone or the round is refused; round 1 stored and then the story moved to
   * round 1, the story save being the one that may still be refused.
   */
  function FirstSegmentAfter(
    storyId: string, s: CreationState, now: int,
    api: seq<Generator.Section> -> Generator.ApiReply, parse: string -> Option<Generator.RawRecord>,
    stories: seq<Story>, rounds: seq<Round>): FirstEffect
  {
    if !Truthy(s.theme) || s.characters.None? || s.genre.None? then FirstEffect(stories, rounds, Skipped)
    else
      var response := Generator.ResponseFor(FirstParams(storyId, s), api, parse);
      var index := Models.StoryIndex(stories, storyId);
      if response.None? then FirstEffect(stories, rounds, GenerationErrorNotice)
      else if index.None? then FirstEffect(stories, rounds, StoryMissing)
      else
        var round := FirstRound(storyId, response.value);
        var updated := stories[index.value].(currentRound := 1, updatedAt := now);
        if !Models.RoundDocValid(round) then FirstEffect(stories, rounds, GenerationErrorNotice)
        else if !Models.StoryDocValid(updated) then FirstEffect(stories, rounds + [round], GenerationErrorNotice)
        else FirstEffect(stories[index.value := updated], rounds + [round],
                         SegmentSent(Segments.BuildSegment(
                           response.value, 1, s.playMode.GetOr(Consensus), s.characterAssignments)))
  }

  /**
   * Right after a story is saved, the first segment finds it: the story is
   * never missing.  The segment is sent exactly when the generator answers
   * and its round passes validation; then round 1 is stored and the new
   * story is at round 1.  Otherwise nothing changes.
   */
  lemma FirstSegmentOfNewStory(
    chatId: string, s: CreationState, now: int, storyId: string,
    api: seq<Generator.Section> -> Generator.ApiReply, parse: string -> Option<Generator.RawRecord>,
    stories: seq<Story>, rounds: seq<Round>)
    requires CreateReady(s) && Models.StoryIndex(stories, storyId).None?
    requires Models.StoryDocValid(StoryFromState(chatId, s, storyId, now))
    ensures var story := StoryFromState(chatId, s, storyId, now);
      var e := FirstSegmentAfter(storyId, s, now, api, parse, stories + [story], rounds);
      var response := Generator.ResponseFor(FirstParams(storyId, s), api, parse);
      && e.first != StoryMissing && e.first != Skipped && e.first != NotRun
      && (e.first.SegmentSent? <==> response.Some? && Models.RoundDocValid(FirstRound(storyId, response.value)))
      && (e.first.SegmentSent? ==>
            e.stories == stories + [story.(currentRound := 1)]
            && e.rounds == rounds + [FirstRound(storyId, response.value)])
      && (!e.first.SegmentSent? ==> e.stories == stories + [story] && e.rounds == rounds)
  {
    var story := StoryFromState(chatId, s, storyId, now);
    Models.StoryIndexAfterInsert(stories, story);
    assert (stories + [story])[|stories| := story.(currentRound := 1)] == stories + [story.(currentRound := 1)];
  }

  /**
   * `generateFirstStorySegment`: generate, store round 1, set the story's
   * current round to 1, and send the segment; its effect is `FirstSegmentAfter`.
   */
  method GenerateFirstStorySegment(
    storyId: string, chatId: string, s: CreationState, now: int,
    api: seq<Generator.Section> -> Generator.ApiReply, parse: string -> Option<Generator.RawRecord>,
    db: Models.Db)
    returns (first: FirstSegment)
    modifies db
    // The cost log written by each generation call (`logApiCost`) is not modelled.
    ensures db.apiLogs == old(db.apiLogs)
    ensures FirstSegmentAfter(storyId, s, now, api, parse, old(db.stories), old(db.rounds))
      == FirstEffect(db.stories, db.rounds, first)
  {
    if !Truthy(s.theme) || s.characters.None? || s.genre.None? {
      return Skipped;
    }
    var response := Generator.GenerateStorySegment(FirstParams(storyId, s), api, parse);
    if response.None? {
      return GenerationErrorNotice;
    }
    var index := Models.StoryIndex(db.stories, storyId);
    if index.None? {
      return StoryMissing;
    }
    var ok := db.InsertRound(FirstRound(storyId, response.value));
    if !ok {
      return GenerationErrorNotice;
    }
    var story := db.stories[index.value].(currentRound := 1, updatedAt := now);
    ok := db.UpdateStory(index.value, story);
    if !ok {
      return GenerationErrorNotice;
    }
    first := SegmentSent(Segments.BuildSegment(response.value, 1, s.playMode.GetOr(Consensus), s.characterAssignments));
  }

  /** The module-level `creationStates` map and the handlers that advance it. */
  class Wizard {
    var states: map<string, CreationState>

    /** Every stored state satisfies the wizard's invariant. */
    predicate Valid()
      reads this
    {
      forall c :: c in states ==> WellFormed(states[c])
    }

    constructor ()
      ensures states == map[] && Valid()
    {
      states := map[];
    }

    /** `getCreationState`. */
    function GetCreationState(chatId: string): Option<CreationState>
      reads this
    {
      if chatId in states then Some(states[chatId]) else None
    }

    /** `startStoryCreation`: replaces any entry of the chat with a fresh one. */
    method StartStoryCreation(chatId: string) returns (reply: Reply)
      requires Valid()
      modifies this
      ensures Valid()
      ensures states == old(states)[chatId := InitialState(chatId)]
      ensures reply == if IsGroupChat(chatId) then AskMode else AskTheme
    {
      InitialStateWellFormed(chatId);
      if JsText.StartsWith(chatId, "C") || JsText.StartsWith(chatId, "R") {
        states := states[chatId := StepOnly(ModeSelection)];
        reply := AskMode;
      } else {
        states := states[chatId := StepOnly(ThemeInput).(playMode := Some(Consensus))];
        reply := AskTheme;
      }
    }

    /** The common shape of the step handlers: a missing entry is left missing, a present one is handled. */
    twostate predicate Advanced(chatId: string, input: Input, reply: Reply)
      reads this
    {
      if chatId in old(states) then
        var o := Handle(old(states)[chatId], input);
        states == old(states)[chatId := o.next] && reply == o.reply
      else states == old(states) && reply == NoReply
    }

    method HandleModeSelection(chatId: string, mode: PlayMode) returns (reply: Reply)
      requires Valid()
      modifies this
      ensures Valid() && Advanced(chatId, ModeChosen(mode), reply)
    {
      reply := NoReply;
      if chatId !in states || states[chatId].step != ModeSelection {
        return;
      }
      HandleKeepsWellFormed(states[chatId], ModeChosen(mode));
      var state := states[chatId];
      state := state.(playMode := Some(mode));
      state := state.(step := ThemeInput);
      states := states[chatId := state];
      reply := AskTheme;
    }

    method HandleThemeInput(chatId: string, theme: string) returns (reply: Reply)
      requires Valid()
      modifies this
      ensures Valid() && Advanced(chatId, ThemeText(theme), reply)
    {
      reply := NoReply;
      if chatId !in states || states[chatId].step != ThemeInput {
        return;
      }
      HandleKeepsWellFormed(states[chatId], ThemeText(theme));
      var state := states[chatId];
      state := state.(theme := Some(theme));
      state := state.(step := CharacterInput);
      states := states[chatId := state];
      reply := AskCharacters;
    }

    /** `handleCharacterInput`: the text is split on commas into trimmed, non-empty names. */
    method HandleCharacterInput(chatId: string, characterText: string) returns (reply: Reply)
      requires Valid()
      modifies this
      ensures Valid() && Advanced(chatId, CharacterText(characterText), reply)
    {
      reply := NoReply;
      if chatId !in states || states[chatId].step != CharacterInput {
        return;
      }
      HandleCharacters(states[chatId], characterText);
      reply := StoreCharacters(chatId, ParseCharacters(characterText));
    }

    /** The rest of `handleCharacterInput` once the names are parsed. */
    method StoreCharacters(chatId: string, characters: seq<string>) returns (reply: Reply)
      requires Valid() && chatId in states && states[chatId].step == CharacterInput
      modifies this
      ensures Valid()
      ensures var o := CharactersGiven(old(states)[chatId], characters);
        states == old(states)[chatId := o.next] && reply == o.reply
    {
      ghost var o := CharactersGiven(states[chatId], characters);
      if characters == [] {
        reply := NoCharactersGiven;
        assert states[chatId := o.next] == states;
        return;
      }
      var state := states[chatId];
      state := state.(characters := Some(characters));
      if state.playMode == Some(RolePlaying) {
        state := state.(step := CharacterAssignment);
        state := state.(characterAssignments := Some([]));
        state := state.(currentAssignmentIndex := Some(0));
        reply := AskAssignment(1, Some(characters[0]));
      } else {
        state := state.(step := GenreSelection);
        reply := AskGenre(AllGenres);
      }
      states := states[chatId := state];
    }

    method HandleCharacterAssignment(chatId: string, characterName: string, userId: string) returns (reply: Reply)
      requires Valid()
      modifies this
      ensures Valid() && Advanced(chatId, Assigned(characterName, userId), reply)
    {
      reply := NoReply;
      if chatId !in states || states[chatId].step != CharacterAssignment
        || states[chatId].characterAssignments.None? || states[chatId].characters.None? {
        return;
      }
      HandleKeepsWellFormed(states[chatId], Assigned(characterName, userId));
      var state := states[chatId];
      state := state.(characterAssignments := Some(OrderedMap.Set(state.characterAssignments.value, characterName, userId)));
      var index := state.currentAssignmentIndex.GetOr(0) + 1;
      state := state.(currentAssignmentIndex := Some(index));
      if index >= |state.characters.value| {
        state := state.(step := GenreSelection);
        states := states[chatId := state];
        reply := AskGenre(AllGenres);
      } else {
        states := states[chatId := state];
        reply := AskAssignment(index + 1, if 0 <= index then Some(state.characters.value[index]) else None);
      }
    }

    method HandleGenreSelection(chatId: string, genre: StoryGenre) returns (reply: Reply)
      requires Valid()
      modifies this
      ensures Valid() && Advanced(chatId, GenreChosen(genre), reply)
    {
      reply := NoReply;
      if chatId !in states || states[chatId].step != GenreSelection {
        return;
      }
      HandleKeepsWellFormed(states[chatId], GenreChosen(genre));
      var state := states[chatId];
      state := state.(genre := Some(genre));
      state := state.(step := RoundsSetting);
      states := states[chatId := state];
      reply := AskRounds;
    }

    method HandleRoundsInput(chatId: string, roundsText: string) returns (reply: Reply)
      requires Valid()
      modifies this
      ensures Valid() && Advanced(chatId, RoundsText(roundsText), reply)
    {
      reply := NoReply;
      if chatId !in states || states[chatId].step != RoundsSetting {
        return;
      }
      HandleKeepsWellFormed(states[chatId], RoundsText(roundsText));
      var rounds := JsNumber.ParseInt(JsText.Trim(roundsText));
      if rounds.None? || rounds.value < 5 || rounds.value > 100 {
        return BadRounds;
      }
      var state := states[chatId];
      state := state.(totalRounds := rounds);
      state := state.(step := Confirmation);
      states := states[chatId := state];
      reply := Summary(state);
    }

    /** `resetStoryCreation`. */
    method ResetStoryCreation(chatId: string)
      requires Valid()
      modifies this
      ensures Valid() && states == old(states) - {chatId}
    {
      states := states - {chatId};
    }

    /** The db and the counters are as they were. */
    twostate predicate Untouched(db: Models.Db, metrics: Metrics.MetricsCollector)
      reads db, metrics
    {
      db.stories == old(db.stories) && db.rounds == old(db.rounds) && db.apiLogs == old(db.apiLogs)
      && metrics.Current() == old(metrics.Current())
    }

    /**
     * What `createStory` leaves behind for the state `s` of chat `chatId`.  An
     * incomplete state changes nothing and sends nothing.  A refused save
     * keeps the entry and sends an error.  A stored story is appended with
     * the generated id, the entry is removed, both story counters rise, and
     * the first segment runs on the collections with the story appended.
     */
    twostate predicate Created(
      chatId: string, s: CreationState, now: nat, id: string,
      api: seq<Generator.Section> -> Generator.ApiReply, parse: string -> Option<Generator.RawRecord>,
      db: Models.Db, metrics: Metrics.MetricsCollector, reply: Reply, first: FirstSegment)
      reads this, db, metrics
    {
      if !CreateReady(s) then
        states == old(states) && reply == NoReply && first == NotRun && Untouched(db, metrics)
      else
        var story := StoryFromState(chatId, s, id, now);
        if !Models.StoryDocValid(story) || old(db.HasStoryId(id)) then
          states == old(states) && reply == CreationFailed && first == NotRun && Untouched(db, metrics)
        else
          && states == old(states) - {chatId} && reply == StoryCreated(id)
          && FirstSegmentAfter(id, s, now, api, parse, old(db.stories) + [story], old(db.rounds))
             == FirstEffect(db.stories, db.rounds, first)
          // The cost log written by each generation call (`logApiCost`) is not modelled.
          && db.apiLogs == old(db.apiLogs)
          && metrics.Current() == old(metrics.Current()).(
               totalStories := old(metrics.totalStories) + 1,
               activeStories := old(metrics.activeStories) + 1)
    }

    /** `createStory`, given the id `generateStoryId` draws. */
    method CreateStory(
      chatId: string, s: CreationState, now: nat, storyId: string,
      api: seq<Generator.Section> -> Generator.ApiReply, parse: string -> Option<Generator.RawRecord>,
      db: Models.Db, metrics: Metrics.MetricsCollector)
      returns (reply: Reply, first: FirstSegment)
      requires Valid() && WellFormed(s)
      modifies this, db, metrics
      ensures Valid()
      ensures Created(chatId, s, now, storyId, api, parse, db, metrics, reply, first)
    {
      reply, first := NoReply, NotRun;
      if !Truthy(s.theme) || s.characters.None? || s.genre.None? || s.playMode.None?
        || s.totalRounds.None? || s.totalRounds.value == 0 {
        return;
      }
      var ok := SaveStory(chatId, s, now, storyId, db, metrics);
      if !ok {
        reply := CreationFailed;
        return;
      }
      reply := StoryCreated(storyId);
      first := GenerateFirstStorySegment(storyId, chatId, s, now, api, parse, db);
    }

    /**
     * The saving half of `createStory`: the story built from the state is
     * inserted; once stored, the chat's entry is removed and both story
     * counters rise.
     */
    method SaveStory(
      chatId: string, s: CreationState, now: nat, storyId: string,
      db: Models.Db, metrics: Metrics.MetricsCollector)
      returns (ok: bool)
      requires Valid() && WellFormed(s) && CreateReady(s)
      modifies this, db, metrics
      ensures Valid()
      ensures var story := StoryFromState(chatId, s, storyId, now);
        && (ok <==> Models.StoryDocValid(story) && !old(db.HasStoryId(storyId)))
        && db.stories == (if ok then old(db.stories) + [story] else old(db.stories))
        && (ok ==> Models.StoryIndex(db.stories, storyId) == Some(|old(db.stories)|))
      ensures db.rounds == old(db.rounds) && db.apiLogs == old(db.apiLogs)
      ensures !ok ==> states == old(states) && metrics.Current() == old(metrics.Current())
      ensures ok ==> states == old(states) - {chatId}
      ensures ok ==> metrics.Current() == old(metrics.Current()).(
        totalStories := old(metrics.totalStories) + 1,
        activeStories := old(metrics.activeStories) + 1)
    {
      var characterMap: OrderedMap.Entries := [];
      if s.characterAssignments.Some? {
        characterMap := CopyAssignments(s.characterAssignments.value);
      }
      var story := Models.NewStory(
        storyId, chatId, s.theme.value, Some(characterMap), s.totalRounds,
        s.genre.value, s.playMode.value, now);
      assert story == StoryFromState(chatId, s, storyId, now);
      ghost var before := db.stories;
      ok := db.InsertStory(story);
      if !ok {
        return;
      }
      Models.StoryIndexAfterInsert(before, story);
      states := states - {chatId};
      metrics.IncrementStories();
      metrics.IncrementActiveStories();
    }

    /**
     * `handleConfirmation`: ignored outside the confirmation step; a refusal
     * discards the entry and asks to start over; an acceptance creates the story.
     */
    method HandleConfirmation(
      chatId: string, confirmed: bool, now: nat, random: seq<StoryId.Byte>,
      api: seq<Generator.Section> -> Generator.ApiReply, parse: string -> Option<Generator.RawRecord>,
      db: Models.Db, metrics: Metrics.MetricsCollector)
      returns (reply: Reply, first: FirstSegment)
      requires Valid() && |random| == 8
      modifies this, db, metrics
      ensures Valid()
      ensures chatId !in old(states) || old(states)[chatId].step != Confirmation ==>
        states == old(states) && reply == NoReply && first == NotRun && Untouched(db, metrics)
      ensures (chatId in old(states) && old(states)[chatId].step == Confirmation && !confirmed) ==>
        states == old(states) - {chatId} && reply == RestartNotice && first == NotRun && Untouched(db, metrics)
      ensures (chatId in old(states) && old(states)[chatId].step == Confirmation && confirmed) ==>
        Created(chatId, old(states)[chatId], now, StoryId.GenerateStoryId(now, random), api, parse, db, metrics, reply, first)
    {
      reply, first := NoReply, NotRun;
      if chatId !in states || states[chatId].step != Confirmation {
        return;
      }
      if !confirmed {
        states := states - {chatId};
        reply := RestartNotice;
        return;
      }
      var storyId := StoryId.GenerateStoryId(now, random);
      reply, first := CreateStory(chatId, states[chatId], now, storyId, api, parse, db, metrics);
    }
  }
}
