/**
 * The text-message dispatcher: which handler an inbound LINE message event
 * reaches, and which chat it belongs to.  The handlers themselves only reply
 * with fixed text, so the model stops at the route.
 */
module MessageHandler {
  import opened Wrappers
  import JsText

  /** The message part of an event: text, or any other message type by name. */
  datatype Message = TextMessage(text: string) | OtherMessage(messageType: string)

  /**
   * Where the event came from.  A one-to-one chat always names its user;
   * in a group or a room the user id may be absent.
   */
  datatype Source =
    | UserSource(userId: string)
    | GroupSource(groupId: string, groupUserId: Option<string>)
    | RoomSource(roomId: string, roomUserId: Option<string>)
    | OtherSource(otherUserId: Option<string>)

  datatype Event = Event(message: Message, source: Source)

  /** The handler a message reaches. */
  datatype Route =
    | Ignored
    | StartStory(chatId: string, userId: string)
    | ResetStory(chatId: string)
    | LoadStory(text: string)
    | StoryInput(chatId: string, userId: string, text: string)

  const StartCommand: string := "/開始說書"
  const ResetCommand: string := "/重設故事"
  const LoadPrefix: string := "/讀取故事"

  /** `event.source.userId`. */
  function SenderId(source: Source): Option<string> {
    match source
    case UserSource(u) => Some(u)
    case GroupSource(_, u) => u
    case RoomSource(_, u) => u
    case OtherSource(u) => u
  }

  /** `getChatId`: the conversation an event belongs to. */
  function GetChatId(source: Source): string {
    match source
    case UserSource(u) => u
    case GroupSource(g, _) => g
    case RoomSource(r, _) => r
    case OtherSource(_) => "unknown"
  }

  /**
   * `handleMessage`: non-text messages and events without a (non-empty) user
   * id are dropped; then the trimmed text is compared with the two commands,
   * and only after that is the untrimmed text checked for the load prefix.
   */
  function HandleMessage(e: Event): Route {
    if !e.message.TextMessage? then Ignored
    else
      var userId := SenderId(e.source);
      if !Truthy(userId) then Ignored
      else
        var chatId := GetChatId(e.source);
        var text := e.message.text;
        var command := JsText.Trim(text);
        if command == StartCommand then StartStory(chatId, userId.value)
        else if command == ResetCommand then ResetStory(chatId)
        else if JsText.StartsWith(text, LoadPrefix) then LoadStory(text)
        else StoryInput(chatId, userId.value, text)
  }

  /** The chat of a one-to-one conversation is its user; a group or room is its own id; anything else is "unknown". */
  lemma ChatIdSpec(source: Source)
    ensures source.UserSource? ==> GetChatId(source) == SenderId(source).value
    ensures source.GroupSource? ==> GetChatId(source) == source.groupId
    ensures source.RoomSource? ==> GetChatId(source) == source.roomId
    ensures source.OtherSource? ==> GetChatId(source) == "unknown"
  {
  }

  /**
   * Every route, with the exact condition under which a message reaches it;
   * the five conditions are mutually exclusive and cover every event, so
   * exactly one handler runs.
   */
  lemma DispatchSpec(e: Event)
    ensures var r := HandleMessage(e);
      var text := if e.message.TextMessage? then e.message.text else [];
      var sender := SenderId(e.source);
      var accepted := e.message.TextMessage? && Truthy(sender);
      && (r.Ignored? <==> !accepted)
      && (r.StartStory? <==> accepted && JsText.Trim(text) == StartCommand)
      && (r.ResetStory? <==> accepted && JsText.Trim(text) == ResetCommand)
      && (r.LoadStory? <==>
            accepted && JsText.Trim(text) != StartCommand && JsText.Trim(text) != ResetCommand
            && JsText.StartsWith(text, LoadPrefix))
      && (r.StoryInput? <==>
            accepted && JsText.Trim(text) != StartCommand && JsText.Trim(text) != ResetCommand
            && !JsText.StartsWith(text, LoadPrefix))
      && (r.StartStory? ==> r == StartStory(GetChatId(e.source), sender.value))
      && (r.ResetStory? ==> r == ResetStory(GetChatId(e.source)))
      && (r.LoadStory? ==> r == LoadStory(text))
      && (r.StoryInput? ==> r == StoryInput(GetChatId(e.source), sender.value, text))
  {
  }

  /** The commands are recognised with white space around them. */
  lemma CommandsTolerateSpace(before: string, after: string, source: Source)
    requires JsText.AllSpace(before) && JsText.AllSpace(after)
    requires Truthy(SenderId(source))
    ensures HandleMessage(Event(TextMessage(before + StartCommand + after), source))
      == StartStory(GetChatId(source), SenderId(source).value)
    ensures HandleMessage(Event(TextMessage(before + ResetCommand + after), source))
      == ResetStory(GetChatId(source))
  {
    var start, reset := before + StartCommand + after, before + ResetCommand + after;
    PaddedCommand(before, StartCommand, after);
    PaddedCommand(before, ResetCommand, after);
    assert JsText.Trim(start) == StartCommand;
    assert JsText.Trim(reset) == ResetCommand != StartCommand;
  }

  /** White space around a trimmed word trims away. */
  lemma PaddedCommand(before: string, word: string, after: string)
    requires JsText.AllSpace(before) && JsText.AllSpace(after) && JsText.IsTrimmed(word)
    ensures JsText.Trim(before + word + after) == word
  {
    assert before + word + after == before + (word + after);
    JsText.TrimSkipsLeadingSpace(before, word + after);
    TrimDropsTrailing(word, after);
    JsText.TrimOfTrimmed(word);
  }

  /** Trailing white space does not change the trim. */
  lemma {:induction false} TrimDropsTrailing(s: string, w: string)
    requires JsText.AllSpace(w)
    ensures JsText.Trim(s + w) == JsText.Trim(s)
    decreases |w|
  {
    if w != [] {
      var init := w[..|w| - 1];
      assert s + w == (s + init) + [w[|w| - 1]];
      JsText.TrimDropsTrailingSpace(s + init, w[|w| - 1]);
      TrimDropsTrailing(s, init);
    } else {
      assert s + w == s;
    }
  }

  /** Text starting with the load prefix is a load request... */
  lemma LoadPrefixRoutes(rest: string, source: Source)
    requires Truthy(SenderId(source))
    ensures HandleMessage(Event(TextMessage(LoadPrefix + rest), source)) == LoadStory(LoadPrefix + rest)
  {
    var text := LoadPrefix + rest;
    NotACommand(text);
    assert text[..|LoadPrefix|] == LoadPrefix;
  }

  /** ...but leading white space defeats the prefix test, and the text becomes story input. */
  lemma LeadingSpaceDefeatsLoad(w: string, rest: string, source: Source)
    requires w != [] && JsText.AllSpace(w)
    requires Truthy(SenderId(source))
    ensures var text := w + LoadPrefix + rest;
      HandleMessage(Event(TextMessage(text), source)) == StoryInput(GetChatId(source), SenderId(source).value, text)
  {
    var text := w + LoadPrefix + rest;
    assert text == w + (LoadPrefix + rest);
    JsText.TrimSkipsLeadingSpace(w, LoadPrefix + rest);
    NotACommand(LoadPrefix + rest);
    assert !JsText.StartsWith(text, LoadPrefix) by {
      assert JsText.IsSpace(text[0]);
    }
  }

  /** The trim of text that starts with the load prefix is neither command. */
  lemma NotACommand(text: string)
    requires JsText.StartsWith(text, LoadPrefix)
    ensures JsText.Trim(text) != StartCommand && JsText.Trim(text) != ResetCommand
  {
    JsText.TrimStartOfNonSpace(text);
    var t := JsText.Trim(text);
    assert t == text[..|t|];
    if |t| == 5 {
      assert t[1] == text[1] == '讀';
    }
  }
}
