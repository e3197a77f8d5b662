/**
 * `sendStorySegment`: the message announcing a new round.  It carries the
 * round number and narrative, a turn line, and one postback button per
 * option.  A button's label is a capital letter and the option cut to fit;
 * its data is `choice_<round>_<index>_<option>`.
 */
module Segments {
  import opened Wrappers
  import opened StoryTypes
  import OrderedMap
  import JsNumber

  /** The longest option shown whole on a button. */
  const MaxLabelOption: nat := 20
  /** How much of a longer option stays before the ellipsis. */
  const KeptPrefix: nat := 17

  /** Who is asked to act: anybody, or one character, with the player when one is assigned. */
  datatype TurnLine = Everyone | CharacterTurn(character: string, player: Option<string>)

  /** A quick-reply button: `String.fromCharCode(letterCode) + ". " + caption`, posting `data`. */
  datatype Button = Button(letterCode: int, caption: string, data: string)

  datatype Segment = Segment(roundNumber: int, storyText: string, turn: TurnLine, buttons: seq<Button>)

  /** An option longer than 20 characters keeps its first 17 and gains `...`. */
  function Caption(option: string): string {
    if |option| > MaxLabelOption then option[..KeptPrefix] + "..." else option
  }

  /** A caption fits in 20 characters, begins like the option, and is the option itself exactly when that fits. */
  lemma CaptionFits(option: string)
    ensures |Caption(option)| <= MaxLabelOption
    ensures |Caption(option)| == |option| || |Caption(option)| == MaxLabelOption
    ensures Caption(option) == option <==> |option| <= MaxLabelOption
    ensures |option| > MaxLabelOption ==> Caption(option)[..KeptPrefix] == option[..KeptPrefix]
    ensures |option| <= MaxLabelOption ==> Caption(option) == option
  {
  }

  /** The postback data of button `index` of round `roundNumber`. */
  function ChoiceData(roundNumber: int, index: nat, option: string): string {
    "choice_" + JsNumber.IntText(roundNumber) + "_" + JsNumber.Decimal(index) + "_" + option
  }

  /** The text before the first `c` and the text after it, if `c` occurs. */
  function BreakAt(s: string, c: char): (r: Option<(string, string)>)
    ensures r.None? <==> c !in s
    ensures r.Some? ==> c !in r.value.0 && s == r.value.0 + [c] + r.value.1
  {
    if s == [] then None
    else if s[0] == c then Some(([], s[1..]))
    else match BreakAt(s[1..], c)
      case None => None
      case Some((a, b)) => Some(([s[0]] + a, b))
  }

  /** Reads back round, index and option from button data; the source has no reader of its own. */
  function DecodeChoiceData(data: string): Option<(int, int, string)> {
    if |data| < 7 || data[..7] != "choice_" then None
    else match BreakAt(data[7..], '_')
      case None => None
      case Some((roundText, rest)) =>
        match BreakAt(rest, '_')
        case None => None
        case Some((indexText, option)) =>
          match (JsNumber.ParseInt(roundText), JsNumber.ParseInt(indexText))
          case (Some(r), Some(i)) => Some((r, i, option))
          case _ => None
  }

  /** The first `c` of `a + [c] + b` is the one after `a` when `a` holds none. */
  lemma {:induction false} BreakAtFirstOf(a: string, c: char, b: string)
    requires c !in a
    ensures BreakAt(a + [c] + b, c) == Some((a, b))
  {
    if a == [] {
      assert (a + [c] + b)[1..] == b;
    } else {
      assert (a + [c] + b)[1..] == a[1..] + [c] + b;
      BreakAtFirstOf(a[1..], c, b);
      assert [a[0]] + a[1..] == a;
    }
  }

  /** Data of the button shape, with underscore-free number fields, splits into those fields. */
  lemma DecodeFields(data: string, rt: string, it: string, option: string)
    requires data == "choice_" + rt + "_" + it + "_" + option
    requires '_' !in rt && '_' !in it
    ensures DecodeChoiceData(data) ==
      match (JsNumber.ParseInt(rt), JsNumber.ParseInt(it))
      case (Some(r), Some(i)) => Some((r, i, option))
      case _ => None
  {
    assert data[..7] == "choice_";
    assert data[7..] == rt + ['_'] + (it + ['_'] + option);
    BreakAtFirstOf(rt, '_', it + ['_'] + option);
    BreakAtFirstOf(it, '_', option);
  }

  /** Button data determines the round, the index and the whole option. */
  lemma ChoiceDataDecodes(roundNumber: int, index: nat, option: string)
    ensures DecodeChoiceData(ChoiceData(roundNumber, index, option)) == Some((roundNumber, index, option))
  {
    var rt, it := JsNumber.IntText(roundNumber), JsNumber.Decimal(index);
    JsNumber.IntTextShape(roundNumber);
    JsNumber.IntTextShape(index);
    assert JsNumber.IntText(index) == it;
    DecodeFields(ChoiceData(roundNumber, index, option), rt, it, option);
    JsNumber.IntTextParses(roundNumber);
    JsNumber.IntTextParses(index);
  }

  /** Distinct buttons never post the same data. */
  lemma ChoiceDataInjective(r1: int, i1: nat, o1: string, r2: int, i2: nat, o2: string)
    requires ChoiceData(r1, i1, o1) == ChoiceData(r2, i2, o2)
    ensures r1 == r2 && i1 == i2 && o1 == o2
  {
    ChoiceDataDecodes(r1, i1, o1);
    ChoiceDataDecodes(r2, i2, o2);
  }

  /**
   * The turn line: in role-playing mode, with an assignment map, the next
   * character is named, and the player too when the map gives a non-empty one.
   */
  function TurnFor(mode: PlayMode, assignments: Option<OrderedMap.Entries>, next: string): (t: TurnLine)
    ensures t.CharacterTurn? <==> mode == RolePlaying && assignments.Some?
    ensures t.CharacterTurn? ==> t.character == next
    ensures t.CharacterTurn? ==> (t.player.Some? <==> Truthy(OrderedMap.Get(assignments.value, next)))
    ensures t.CharacterTurn? && t.player.Some? ==>
      t.player.value != "" && (next, t.player.value) in assignments.value
  {
    if mode == RolePlaying && assignments.Some? then
      var p := OrderedMap.Get(assignments.value, next);
      CharacterTurn(next, if Truthy(p) then p else None)
    else Everyone
  }

  /** The whole segment message for a generated response. */
  function BuildSegment(
    response: StoryResponse, roundNumber: int, mode: PlayMode, assignments: Option<OrderedMap.Entries>): Segment
  {
    var options := response.options;
    Segment(
      roundNumber, response.storyText, TurnFor(mode, assignments, response.nextCharacterName),
      seq(|options|, i requires 0 <= i < |options| =>
        Button(65 + i, Caption(options[i]), ChoiceData(roundNumber, i, options[i]))))
  }

  /**
   * One button per option, in order, lettered from `A`; each label shows the
   * option within 20 characters and each button's data reads back as its
   * round, its index and its full option.
   */
  lemma SegmentButtons(response: StoryResponse, roundNumber: int, mode: PlayMode, assignments: Option<OrderedMap.Entries>)
    ensures var m := BuildSegment(response, roundNumber, mode, assignments);
      && m.roundNumber == roundNumber && m.storyText == response.storyText
      && |m.buttons| == |response.options|
      && forall i :: 0 <= i < |m.buttons| ==>
        && m.buttons[i].letterCode == 'A' as int + i
        && |m.buttons[i].caption| <= MaxLabelOption
        && DecodeChoiceData(m.buttons[i].data) == Some((roundNumber, i, response.options[i]))
  {
    var m := BuildSegment(response, roundNumber, mode, assignments);
    forall i | 0 <= i < |m.buttons|
      ensures |m.buttons[i].caption| <= MaxLabelOption
      ensures DecodeChoiceData(m.buttons[i].data) == Some((roundNumber, i, response.options[i]))
    {
      CaptionFits(response.options[i]);
      ChoiceDataDecodes(roundNumber, i, response.options[i]);
    }
  }
}
