/**
 * The entities of the story bot: the story status, play mode and genre
 * enumerations, a persisted Story and Round, the wizard's transient creation
 * state and the generator's structured response.
 */
module StoryTypes {
  import opened Wrappers
  import OrderedMap

  datatype StoryStatus = InProgress | Completed | Cancelled

  datatype PlayMode = Consensus | RolePlaying

  datatype StoryGenre = Horror | Mystery | Romance | Comedy | Fantasy | SciFi | Realistic

  /** The persisted spelling of each genre, which is also its selection token. */
  function GenreName(g: StoryGenre): string {
    match g
    case Horror => "恐怖"
    case Mystery => "懸疑"
    case Romance => "愛情"
    case Comedy => "喜劇"
    case Fantasy => "奇幻"
    case SciFi => "科幻"
    case Realistic => "寫實"
  }

  /** The genres in the order the genre menu offers them. */
  const AllGenres: seq<StoryGenre> := [Horror, Mystery, Romance, Comedy, Fantasy, SciFi, Realistic]

  const AllStatuses: seq<StoryStatus> := [InProgress, Completed, Cancelled]

  const AllModes: seq<PlayMode> := [Consensus, RolePlaying]

  /** Each enumeration lists every value once: 3 statuses, 2 modes, 7 genres with distinct names. */
  lemma EnumerationsComplete()
    ensures |AllStatuses| == 3 && |AllModes| == 2 && |AllGenres| == 7
    ensures forall s: StoryStatus :: s in AllStatuses
    ensures forall m: PlayMode :: m in AllModes
    ensures forall g: StoryGenre :: g in AllGenres
    ensures forall i, j :: 0 <= i < j < |AllGenres| ==> GenreName(AllGenres[i]) != GenreName(AllGenres[j])
  {
    forall s: StoryStatus ensures s in AllStatuses {
      match s
      case InProgress => assert AllStatuses[0] == s;
      case Completed => assert AllStatuses[1] == s;
      case Cancelled => assert AllStatuses[2] == s;
    }
    forall m: PlayMode ensures m in AllModes {
      match m
      case Consensus => assert AllModes[0] == m;
      case RolePlaying => assert AllModes[1] == m;
    }
    forall g: StoryGenre ensures g in AllGenres {
      match g
      case Horror => assert AllGenres[0] == g;
      case Mystery => assert AllGenres[1] == g;
      case Romance => assert AllGenres[2] == g;
      case Comedy => assert AllGenres[3] == g;
      case Fantasy => assert AllGenres[4] == g;
      case SciFi => assert AllGenres[5] == g;
      case Realistic => assert AllGenres[6] == g;
    }
  }

  /** The wizard's steps; `CompletedStep` is declared by the source but no handler enters it. */
  datatype CreationStep =
    | ModeSelection | ThemeInput | CharacterInput | CharacterAssignment
    | GenreSelection | RoundsSetting | Confirmation | CompletedStep

  /**
   * A persisted story.  `characters` maps a character name to the player who
   * plays it; `createdAt`/`updatedAt` are the timestamps the schema maintains.
   */
  datatype Story = Story(
    storyId: string,
    chatId: string,
    theme: string,
    characters: OrderedMap.Entries,
    totalRounds: int,
    currentRound: int,
    status: StoryStatus,
    genre: StoryGenre,
    playMode: PlayMode,
    createdAt: int,
    updatedAt: int)

  /**
   * A persisted round.  `story` is the owning story's key; the three optional
   * fields are absent until set.
   */
  datatype Round = Round(
    story: string,
    roundNumber: int,
    storyContent: string,
    options: seq<string>,
    userChoice: Option<string>,
    chosenBy: Option<string>,
    nextCharacterName: Option<string>)

  /** The wizard's per-chat state: every field but the step is optional. */
  datatype CreationState = CreationState(
    step: CreationStep,
    playMode: Option<PlayMode>,
    theme: Option<string>,
    characters: Option<seq<string>>,
    characterAssignments: Option<OrderedMap.Entries>,
    currentAssignmentIndex: Option<int>,
    genre: Option<StoryGenre>,
    totalRounds: Option<int>)

  /** A state holding only its step. */
  function StepOnly(step: CreationStep): CreationState {
    CreationState(step, None, None, None, None, None, None, None)
  }

  /** The generator's answer: narrative text, the options and the character who acts next. */
  datatype StoryResponse = StoryResponse(storyText: string, options: seq<string>, nextCharacterName: string)
}
