/**
 * The story generator's pure parts: the genre style-guide lookup, the prompt
 * assembly, the cleaning and validation of the model's JSON reply with its
 * fixed fallback, and the defaulting of the generation parameters.  The
 * completion service and `JSON.parse` are parameters: `api` maps a prompt to a
 * reply, and `parse` maps cleaned text to the record it encodes, or `None`
 * when parsing throws.
 */
module Generator {
  import opened Wrappers
  import opened StoryTypes
  import JsText

  /**
   * `styleGuides[genre] || styleGuides['寫實']`: the genre whose style guide
   * a name selects.  A name outside the seven falls back to 寫實.
   */
  function GuideGenre(name: string): (g: StoryGenre)
    ensures GenreName(g) == name || g == Realistic
  {
    if name == "恐怖" then Horror
    else if name == "懸疑" then Mystery
    else if name == "愛情" then Romance
    else if name == "喜劇" then Comedy
    else if name == "奇幻" then Fantasy
    else if name == "科幻" then SciFi
    else Realistic
  }

  /** Every genre has its own guide, and only names that are no genre fall back. */
  lemma GuideLookup(g: StoryGenre, name: string)
    ensures GuideGenre(GenreName(g)) == g
    ensures (forall h: StoryGenre :: GenreName(h) != name) ==> GuideGenre(name) == Realistic
  {
    if forall h: StoryGenre :: GenreName(h) != name {
      assert GenreName(Horror) != name && GenreName(Mystery) != name && GenreName(Romance) != name;
      assert GenreName(Comedy) != name && GenreName(Fantasy) != name && GenreName(SciFi) != name;
    }
  }

  /** The parts of the prompt; their fixed wording is not modelled. */
  datatype Section =
    | Identity
    | Style(genreName: string, guide: StoryGenre)
    | Context(theme: string, charactersText: string)
    | History(recentHistory: string)
    | LastAction(character: string, action: string)
    | Task

  /** The prompt's sections in order: the history and last-action lines are conditional. */
  function PromptSections(
    theme: string, characters: seq<string>, genre: StoryGenre,
    recentHistory: string, userChoice: string, previousCharacterName: string): seq<Section>
  {
    [Identity, Style(GenreName(genre), GuideGenre(GenreName(genre))),
     Context(theme, JsText.Join(characters, ", "))]
    + (if recentHistory != "" then [History(recentHistory)] else [])
    + (if userChoice != "" && previousCharacterName != "" then [LastAction(previousCharacterName, userChoice)] else [])
    + [Task]
  }

  /** `buildStoryPrompt`: the fixed sections, each conditional one appended when its text is non-empty. */
  method BuildStoryPrompt(
    theme: string, characters: seq<string>, genre: StoryGenre,
    recentHistory: string, userChoice: string, previousCharacterName: string)
    returns (prompt: seq<Section>)
    ensures prompt == PromptSections(theme, characters, genre, recentHistory, userChoice, previousCharacterName)
  {
    var charactersText := JsText.Join(characters, ", ");
    var genreName := GenreName(genre);
    prompt := [Identity, Style(genreName, GuideGenre(genreName)), Context(theme, charactersText)];
    if recentHistory != "" {
      prompt := prompt + [History(recentHistory)];
    }
    if userChoice != "" && previousCharacterName != "" {
      prompt := prompt + [LastAction(previousCharacterName, userChoice)];
    }
    prompt := prompt + [Task];
  }

  /**
   * The prompt opens with the identity, style and context sections, closes
   * with the `Task` section, holds the history exactly when there is history and the
   * last action exactly when both the action and its character are known.
   */
  lemma {:induction false} PromptShape(
    theme: string, characters: seq<string>, genre: StoryGenre,
    recentHistory: string, userChoice: string, previousCharacterName: string)
    ensures var p := PromptSections(theme, characters, genre, recentHistory, userChoice, previousCharacterName);
      && |p| >= 4 && p[0] == Identity && p[|p| - 1] == Task
      && p[1] == Style(GenreName(genre), genre)
      && p[2] == Context(theme, JsText.Join(characters, ", "))
      && ((exists i :: 0 <= i < |p| && p[i].History?) <==> recentHistory != "")
      && ((exists i :: 0 <= i < |p| && p[i].LastAction?) <==> userChoice != "" && previousCharacterName != "")
      && (forall i :: 0 <= i < |p| && p[i].History? ==> p[i].recentHistory == recentHistory)
      && (forall i :: 0 <= i < |p| && p[i].LastAction? ==>
            p[i].character == previousCharacterName && p[i].action == userChoice)
  {
    var p := PromptSections(theme, characters, genre, recentHistory, userChoice, previousCharacterName);
    GuideLookup(genre, "");
    if recentHistory != "" {
      assert p[3].History?;
    }
    if userChoice != "" && previousCharacterName != "" {
      assert p[|p| - 2].LastAction?;
    }
  }

  /**
   * One global regex replacement of `pattern` followed by an optional
   * newline: a left-to-right scan removing each non-overlapping occurrence.
   */
  function RemoveAll(s: string, pattern: string): (r: string)
    requires pattern != []
    ensures |r| <= |s|
    decreases |s|
  {
    if s == [] then []
    else if JsText.StartsWith(s, pattern) then
      var rest := s[|pattern|..];
      if rest != [] && rest[0] == '\n' then RemoveAll(rest[1..], pattern) else RemoveAll(rest, pattern)
    else [s[0]] + RemoveAll(s[1..], pattern)
  }

  /** Text that does not hold the pattern's first character passes through unchanged. */
  lemma {:induction false} RemoveAllAbsent(s: string, pattern: string)
    requires pattern != [] && pattern[0] !in s
    ensures RemoveAll(s, pattern) == s
  {
    if s != [] {
      assert s[0] != pattern[0];
      RemoveAllAbsent(s[1..], pattern);
    }
  }

  /** The cleaning before `JSON.parse`: both fence markers removed, then trimmed. */
  function CleanCompletion(completion: string): (r: string)
    ensures JsText.IsTrimmed(r)
  {
    var r := JsText.Trim(RemoveAll(RemoveAll(completion, "```json"), "```"));
    JsText.TrimIsTrimmed(RemoveAll(RemoveAll(completion, "```json"), "```"));
    r
  }

  /**
   * A reply wrapped in a ```json fence, whose body holds no backtick, is
   * cleaned to its trimmed body; an unfenced such reply is only trimmed.
   */
  lemma CleanFencedReply(body: string)
    requires '`' !in body
    ensures CleanCompletion("```json\n" + body + "\n```") == JsText.Trim(body)
    ensures CleanCompletion(body) == JsText.Trim(body)
  {
    RemoveAllAbsent(body, "```json");
    RemoveAllAbsent(body, "```");
    OpeningFenceRemoved(body + "\n");
    ClosingFenceRemoved(body + "\n");
    assert "```json\n" + body + "\n```" == "```json\n" + (body + "\n") + "```";
    JsText.TrimDropsTrailingSpace(body, '\n');
  }

  /** The first pass removes the opening fence with its newline and keeps the closing one. */
  lemma OpeningFenceRemoved(inner: string)
    requires '`' !in inner
    ensures RemoveAll("```json\n" + inner + "```", "```json") == inner + "```"
  {
    var fenced := "```json\n" + inner + "```";
    assert JsText.StartsWith(fenced, "```json");
    assert fenced[7..] == "\n" + (inner + "```");
    assert fenced[7..][1..] == inner + "```";
    RemoveAllKeepsFree(inner, "```json", "```");
    assert RemoveAll("```", "```json") == "```" by {
      assert "```"[1..] == "``" && "``"[1..] == "`" && "`"[1..] == [];
    }
  }

  /** The second pass removes the closing fence. */
  lemma ClosingFenceRemoved(inner: string)
    requires '`' !in inner
    ensures RemoveAll(inner + "```", "```") == inner
  {
    RemoveAllKeepsFree(inner, "```", "```");
    assert "```"[3..] == [];
  }

  /** Text without the pattern's first character is kept whole in front of the scan of the rest. */
  lemma {:induction false} RemoveAllKeepsFree(a: string, pattern: string, t: string)
    requires pattern != [] && pattern[0] !in a
    ensures RemoveAll(a + t, pattern) == a + RemoveAll(t, pattern)
  {
    if a == [] {
      assert a + t == t;
    } else {
      assert (a + t)[0] == a[0] != pattern[0];
      assert (a + t)[1..] == a[1..] + t;
      RemoveAllKeepsFree(a[1..], pattern, t);
    }
  }

  /** What `JSON.parse` may give for the `options` field: an array of strings, or another value with its truthiness. */
  datatype RawOptions = Array(items: seq<string>) | NotArray(truthy: bool)

  /** The fields of the parsed object the validation reads; `None` is an absent field. */
  datatype RawRecord = RawRecord(
    storyText: Option<string>,
    options: Option<RawOptions>,
    nextCharacterName: Option<string>)

  /** The reply used whenever parsing or validation fails. */
  const Fallback: StoryResponse :=
    StoryResponse("故事生成時發生錯誤，讓我們繼續冒險...", ["檢查周圍環境", "與同伴討論下一步", "謹慎地前進"], "主角")

  /** The two validation checks: truthy fields, then an array of exactly three options. */
  predicate Acceptable(r: RawRecord) {
    && Truthy(r.storyText) && r.options.Some?
    && (r.options.value.Array? || r.options.value.truthy)
    && Truthy(r.nextCharacterName)
    && r.options.value.Array? && |r.options.value.items| == 3
  }

  /** `parseStoryResponse`: the parsed record when it is acceptable, the fallback otherwise. */
  function ParseStoryResponse(completion: string, parse: string -> Option<RawRecord>): StoryResponse {
    match parse(CleanCompletion(completion))
    case Some(r) =>
      if Acceptable(r) then StoryResponse(r.storyText.value, r.options.value.items, r.nextCharacterName.value)
      else Fallback
    case None => Fallback
  }

  /**
   * The parsed reply always has exactly three options and non-empty text and
   * next character.  It is the parsed record exactly when that record is
   * acceptable, and the fallback otherwise.
   */
  lemma ParseStoryResponseSpec(completion: string, parse: string -> Option<RawRecord>)
    ensures var resp := ParseStoryResponse(completion, parse);
      var parsed := parse(CleanCompletion(completion));
      && |resp.options| == 3 && resp.storyText != "" && resp.nextCharacterName != ""
      && (parsed.Some? && Acceptable(parsed.value) ==>
            && Some(resp.storyText) == parsed.value.storyText
            && Some(resp.nextCharacterName) == parsed.value.nextCharacterName
            && parsed.value.options == Some(Array(resp.options)))
      && (!(parsed.Some? && Acceptable(parsed.value)) ==> resp == Fallback)
  {
  }

  /** The validation does not look inside the options: an empty option is accepted. */
  lemma EmptyOptionAccepted(completion: string, parse: string -> Option<RawRecord>)
    requires parse(CleanCompletion(completion)) == Some(RawRecord(Some("x"), Some(Array(["", "a", "b"])), Some("y")))
    ensures ParseStoryResponse(completion, parse).options[0] == ""
  {
  }

  /** The completion service's answer: a failed call, or the first choice's content if any. */
  datatype ApiReply = CallFailed | Reply(content: Option<string>)

  /** The inputs of `generateStorySegment`; the last three may be absent. */
  datatype GenerationParams = GenerationParams(
    storyId: string, theme: string, characters: seq<string>, genre: StoryGenre,
    recentHistory: Option<string>, userChoice: Option<string>, previousCharacterName: Option<string>)

  /** The prompt sent for a set of parameters, absent optional inputs read as the empty string. */
  function PromptFor(params: GenerationParams): seq<Section> {
    PromptSections(
      params.theme, params.characters, params.genre, params.recentHistory.GetOr(""),
      params.userChoice.GetOr(""), params.previousCharacterName.GetOr(""))
  }

  /** What a generation yields: `None` when it throws, the parsed reply otherwise. */
  function ResponseFor(params: GenerationParams, api: seq<Section> -> ApiReply, parse: string -> Option<RawRecord>)
    : Option<StoryResponse>
  {
    var reply := api(PromptFor(params));
    if reply.Reply? && Truthy(reply.content) then Some(ParseStoryResponse(reply.content.value, parse)) else None
  }

  /**
   * A generation throws exactly when the call fails or returns no content;
   * a missing completion is never replaced by the fallback.  Otherwise the
   * reply has three options and non-empty text and next character.
   */
  lemma ResponseForSpec(params: GenerationParams, api: seq<Section> -> ApiReply, parse: string -> Option<RawRecord>)
    ensures var reply := api(PromptFor(params));
      && (ResponseFor(params, api, parse).None? <==> reply.CallFailed? || reply.content.None? || reply.content.value == "")
      && (ResponseFor(params, api, parse).Some? ==>
            var r := ResponseFor(params, api, parse).value;
            |r.options| == 3 && r.storyText != "" && r.nextCharacterName != "")
  {
    var reply := api(PromptFor(params));
    if reply.Reply? && Truthy(reply.content) {
      ParseStoryResponseSpec(reply.content.value, parse);
    }
  }

  /** Absent history, choice and previous character all default to the empty string, which leaves their sections out. */
  lemma DefaultsLeaveSectionsOut(storyId: string, theme: string, characters: seq<string>, genre: StoryGenre)
    ensures PromptFor(GenerationParams(storyId, theme, characters, genre, None, None, None))
      == [Identity, Style(GenreName(genre), genre), Context(theme, JsText.Join(characters, ", ")), Task]
  {
    GuideLookup(genre, "");
  }

  /**
   * `generateStorySegment`: absent optional inputs default to the empty
   * string, the prompt goes to the service, and its content is parsed.  A
   * failed call or an empty content is an error (`None`), not the fallback.
   */
  method GenerateStorySegment(
    params: GenerationParams, api: seq<Section> -> ApiReply, parse: string -> Option<RawRecord>)
    returns (result: Option<StoryResponse>)
    ensures result == ResponseFor(params, api, parse)
  {
    var prompt := BuildStoryPrompt(
      params.theme, params.characters, params.genre, params.recentHistory.GetOr(""),
      params.userChoice.GetOr(""), params.previousCharacterName.GetOr(""));
    var reply := api(prompt);
    if !(reply.Reply? && Truthy(reply.content)) {
      return None;
    }
    result := Some(ParseStoryResponse(reply.content.value, parse));
  }
}
