/**
 * The generation helpers: recovering JSON text from a model reply, turning a reply into a
 * result, the title-count clamp, the deterministic hashtag builder and the cover colour merge.
 *
 * The language-model call is a parameter (`Llm`): for each request it gives a reply or a
 * failure. `JSON.parse` is split into `isJson` (does the text parse?) and a decoder that gives
 * the parsed value of text that does.
 */
module Ai {
  import opened Common
  import opened Strings
  import opened Xhs

  // ---------------------------------------------------------------------------------------------
  // JSON extraction

  const Fence: string := "```"

  /**
   * The group captured by the pattern ```(?:json)?\s*([\s\S]*?)``` in `content`: after the first
   * fence, an optional `json` tag and the whitespace that follows it are skipped and the capture
   * runs lazily up to the next fence. (Neither the tag nor whitespace contains a backtick, so when
   * the first fence has no closing fence after it no later fence has one either.)
   */
  function FencedBlock(content: string): (r: Option<string>)
    ensures r.Some? ==> IsSubstring(r.value, content)
    ensures r.Some? ==> forall k: nat :: !OccursAt(r.value, Fence, k)
    ensures var open := IndexOfFrom(content, Fence, 0);
      r.Some? <==> open != -1 && IndexOfFrom(content, Fence, CaptureStart(content, open)) != -1
    ensures r.Some? ==>
      var start := CaptureStart(content, IndexOfFrom(content, Fence, 0));
      r.value == content[start..IndexOfFrom(content, Fence, start)]
  {
    var open := IndexOfFrom(content, Fence, 0);
    if open == -1 then None
    else
      var start := CaptureStart(content, open);
      var close := IndexOfFrom(content, Fence, start);
      if close == -1 then None
      else
        SliceIsSubstring(content, start, close);
        CaptureHasNoFence(content, start, close);
        Some(content[start..close])
  }

  /**
   * Where the capture begins after a fence at `open`: past the fence, past a `json` tag when one
   * follows it, and past the whitespace after that. Nothing skipped is a backtick.
   */
  function CaptureStart(content: string, open: nat): (start: nat)
    requires open + |Fence| <= |content|
    ensures open + |Fence| <= start <= |content|
    ensures forall k :: open + |Fence| <= k < start ==> content[k] != '`'
  {
    var afterFence := open + |Fence|;
    var afterTag :=
      if afterFence + 4 <= |content| && content[afterFence..afterFence + 4] == "json" then afterFence + 4
      else afterFence;
    var n := LeadingWhitespace(content[afterTag..]);
    assert forall k :: afterTag <= k < afterTag + n ==> content[k] == content[afterTag..][k - afterTag];
    assert forall k :: afterFence <= k < afterTag ==> content[k] == content[afterFence..afterFence + 4][k - afterFence];
    afterTag + n
  }

  /** A fence at `at` that is the first one at or after `from`. */
  predicate FirstFenceFrom(content: string, from: nat, at: nat)
  {
    from <= at && OccursAt(content, Fence, at) && forall k: nat :: from <= k < at ==> !OccursAt(content, Fence, k)
  }

  /** The first fence at or after a position is the one `indexOf` finds. */
  lemma FirstFenceIsIndexOf(content: string, from: nat, at: nat)
    requires from <= |content| && FirstFenceFrom(content, from, at)
    ensures IndexOfFrom(content, Fence, from) == at
  {
    var i := IndexOfFrom(content, Fence, from);
    assert i != -1;
  }

  /**
   * The fenced block is read off the fences themselves: when the first fence of the content is at
   * `open` and the first fence after its capture start is at `close`, the block is what lies
   * between them.
   */
  lemma FencedBlockBetweenFences(content: string, open: nat, close: nat)
    requires FirstFenceFrom(content, 0, open)
    requires FirstFenceFrom(content, CaptureStart(content, open), close)
    ensures FencedBlock(content) == Some(content[CaptureStart(content, open)..close])
  {
    FirstFenceIsIndexOf(content, 0, open);
    FirstFenceIsIndexOf(content, CaptureStart(content, open), close);
  }

  /** Without a fence after the capture start there is no block. */
  lemma NoClosingFenceNoBlock(content: string, open: nat)
    requires FirstFenceFrom(content, 0, open)
    requires forall k: nat :: CaptureStart(content, open) <= k ==> !OccursAt(content, Fence, k)
    ensures FencedBlock(content).None?
  {
    FirstFenceIsIndexOf(content, 0, open);
  }

  /** What lies between a position and the first fence after it holds no fence. */
  lemma CaptureHasNoFence(content: string, start: nat, close: nat)
    requires start <= close <= |content|
    requires forall k: nat :: start <= k < close ==> !OccursAt(content, Fence, k)
    ensures forall k: nat :: !OccursAt(content[start..close], Fence, k)
  {
    forall k: nat | OccursAt(content[start..close], Fence, k)
      ensures false
    {
      var slice := content[start..close];
      assert k + 3 <= |slice| && slice[k..k + 3] == Fence;
      forall m | 0 <= m < 3 ensures content[start + k..start + k + 3][m] == Fence[m] {
        assert slice[k..k + 3][m] == slice[k + m] == content[start + k + m];
      }
      assert start + k < close;
      assert OccursAt(content, Fence, start + k);
    }
  }

  /** From the first `{` to the last `}` of `cleaned`, when the last comes after the first. */
  function BraceCandidate(cleaned: string): (r: Option<string>)
    ensures r.Some? ==> IsSubstring(r.value, cleaned)
    ensures r.Some? ==> |r.value| >= 2 && r.value[0] == '{' && r.value[|r.value| - 1] == '}'
    ensures r.None? <==> ('{' !in cleaned || '}' !in cleaned || LastIndexOf(cleaned, '}') < IndexOf(cleaned, '{'))
    ensures r.Some? ==> r.value == cleaned[IndexOf(cleaned, '{')..LastIndexOf(cleaned, '}') + 1]
  {
    var firstBrace := IndexOf(cleaned, '{');
    var lastBrace := LastIndexOf(cleaned, '}');
    if firstBrace != -1 && lastBrace != -1 && lastBrace > firstBrace then
      InclusiveSlice(cleaned, firstBrace, lastBrace);
      Some(cleaned[firstBrace..lastBrace + 1])
    else None
  }

  /**
   * From the first `[` to the last `]` of `cleaned`, considered only when that `[` comes before
   * every `{`.
   */
  function BracketCandidate(cleaned: string): (r: Option<string>)
    ensures r.Some? ==> IsSubstring(r.value, cleaned)
    ensures r.Some? ==> |r.value| >= 2 && r.value[0] == '[' && r.value[|r.value| - 1] == ']'
    ensures r.Some? <==>
      && '[' in cleaned && ']' in cleaned && IndexOf(cleaned, '[') < LastIndexOf(cleaned, ']')
      && ('{' !in cleaned || IndexOf(cleaned, '[') < IndexOf(cleaned, '{'))
    ensures r.Some? ==> r.value == cleaned[IndexOf(cleaned, '[')..LastIndexOf(cleaned, ']') + 1]
  {
    var firstBrace := IndexOf(cleaned, '{');
    var firstBracket := IndexOf(cleaned, '[');
    var lastBracket := LastIndexOf(cleaned, ']');
    if firstBracket != -1 && lastBracket != -1 && lastBracket > firstBracket
       && (firstBrace == -1 || firstBracket < firstBrace) then
      InclusiveSlice(cleaned, firstBracket, lastBracket);
      Some(cleaned[firstBracket..lastBracket + 1])
    else None
  }

  /** The slice from `i` to `j` inclusive is a piece of `s` that starts with `s[i]` and ends with `s[j]`. */
  lemma InclusiveSlice(s: string, i: nat, j: nat)
    requires i < j < |s|
    ensures IsSubstring(s[i..j + 1], s)
    ensures |s[i..j + 1]| >= 2 && s[i..j + 1][0] == s[i] && s[i..j + 1][|s[i..j + 1]| - 1] == s[j]
  {
    SliceIsSubstring(s, i, j + 1);
  }

  /** The text the later stages search: the trimmed fenced block if there is one, else the content. */
  function Cleaned(content: string): (r: string)
    ensures IsSubstring(r, content)
  {
    var block := FencedBlock(content);
    if block.Some? then
      SubstringTransitive(Trim(block.value), block.value, content);
      Trim(block.value)
    else
      SliceIsSubstring(content, 0, |content|);
      assert content[0..|content|] == content;
      content
  }

  /**
   * `extractJSON`: the whole content if it parses; else the trimmed fenced block if it parses;
   * else the brace candidate, then the bracket candidate, of that block (or of the content when
   * there is no block), whichever parses first; else the content unchanged.
   */
  function ExtractJson(content: string, isJson: string -> bool): (r: string)
    ensures isJson(content) ==> r == content
    ensures r == content || (isJson(r) && IsSubstring(r, content))
  {
    if isJson(content) then content
    else
      var cleaned := Cleaned(content);
      var brace := BraceCandidate(cleaned);
      var bracket := BracketCandidate(cleaned);
      if FencedBlock(content).Some? && isJson(cleaned) then cleaned
      else if brace.Some? && isJson(brace.value) then
        SubstringTransitive(brace.value, cleaned, content);
        brace.value
      else if bracket.Some? && isJson(bracket.value) then
        SubstringTransitive(bracket.value, cleaned, content);
        bracket.value
      else content
  }

  /** When no piece of the content parses, the content is returned unchanged. */
  lemma ExtractJsonNothingParses(content: string, isJson: string -> bool)
    requires forall t :: IsSubstring(t, content) ==> !isJson(t)
    ensures ExtractJson(content, isJson) == content
  {
  }

  /** A fenced block whose trimmed text parses wins over the brace and bracket stages. */
  lemma ExtractJsonPrefersFencedBlock(content: string, isJson: string -> bool)
    requires !isJson(content) && FencedBlock(content).Some?
    requires isJson(Trim(FencedBlock(content).value))
    ensures ExtractJson(content, isJson) == Trim(FencedBlock(content).value)
  {
  }

  /**
   * Once a fenced block is found, the brace stage looks only inside it: a parseable object there
   * is returned, whatever else the content holds.
   */
  lemma ExtractJsonSearchesInsideBlock(content: string, isJson: string -> bool)
    requires !isJson(content) && FencedBlock(content).Some?
    requires !isJson(Trim(FencedBlock(content).value))
    requires BraceCandidate(Trim(FencedBlock(content).value)).Some?
    requires isJson(BraceCandidate(Trim(FencedBlock(content).value)).value)
    ensures ExtractJson(content, isJson) == BraceCandidate(Trim(FencedBlock(content).value)).value
  {
  }

  /** Without a fenced block that parses, a brace candidate that parses is the result. */
  lemma ExtractJsonBraceStage(content: string, isJson: string -> bool)
    requires !isJson(content)
    requires FencedBlock(content).None? || !isJson(Cleaned(content))
    requires BraceCandidate(Cleaned(content)).Some? && isJson(BraceCandidate(Cleaned(content)).value)
    ensures ExtractJson(content, isJson) == BraceCandidate(Cleaned(content)).value
  {
  }

  /** When neither the block nor the brace candidate parses, a bracket candidate that parses is the result. */
  lemma ExtractJsonBracketStage(content: string, isJson: string -> bool)
    requires !isJson(content)
    requires FencedBlock(content).None? || !isJson(Cleaned(content))
    requires BraceCandidate(Cleaned(content)).None? || !isJson(BraceCandidate(Cleaned(content)).value)
    requires BracketCandidate(Cleaned(content)).Some? && isJson(BracketCandidate(Cleaned(content)).value)
    ensures ExtractJson(content, isJson) == BracketCandidate(Cleaned(content)).value
  {
    var cleaned := Cleaned(content);
    var brace := BraceCandidate(cleaned);
    assert !(FencedBlock(content).Some? && isJson(cleaned));
    assert !(brace.Some? && isJson(brace.value));
  }

  /** When neither the content, the block, nor either candidate parses, the content comes back unchanged. */
  lemma ExtractJsonNoCandidate(content: string, isJson: string -> bool)
    requires !isJson(content)
    requires FencedBlock(content).None? || !isJson(Cleaned(content))
    requires BraceCandidate(Cleaned(content)).None? || !isJson(BraceCandidate(Cleaned(content)).value)
    requires BracketCandidate(Cleaned(content)).None? || !isJson(BracketCandidate(Cleaned(content)).value)
    ensures ExtractJson(content, isJson) == content
  {
    var cleaned := Cleaned(content);
    var brace := BraceCandidate(cleaned);
    var bracket := BracketCandidate(cleaned);
    assert !(FencedBlock(content).Some? && isJson(cleaned));
    assert !(brace.Some? && isJson(brace.value));
    assert !(bracket.Some? && isJson(bracket.value));
  }

  /**
   * Once there is a fenced block, only its text is searched: when nothing inside the block parses,
   * the content comes back unchanged, whatever lies outside the fences.
   */
  lemma ExtractJsonNothingInsideBlock(content: string, isJson: string -> bool)
    requires !isJson(content) && FencedBlock(content).Some?
    requires forall t :: IsSubstring(t, Cleaned(content)) ==> !isJson(t)
    ensures ExtractJson(content, isJson) == content
  {
    var cleaned := Cleaned(content);
    SliceIsSubstring(cleaned, 0, |cleaned|);
    assert cleaned[0..|cleaned|] == cleaned;
  }

  /**
   * A concrete consequence of searching inside the block: with a fenced block that is not JSON
   * followed by an object that is, the object is not found and the content comes back unchanged.
   */
  lemma ExtractJsonMissesObjectAfterBlock()
    ensures ExtractJson("```x```{}", t => t == "{}") == "```x```{}"
  {
    var content := "```x```{}";
    var isJson := t => t == "{}";
    assert |content| != |"{}"|;
    SampleFencedBlock();
    assert !IsJsWhitespace('x');
    assert Cleaned(content) == "x";
    forall t | IsSubstring(t, "x") ensures !isJson(t) {
      var k: nat :| OccursAt("x", t, k);
    }
    ExtractJsonNothingInsideBlock(content, isJson);
  }

  /** The fenced block of "```x```{}" is "x". */
  lemma SampleFencedBlock()
    ensures FencedBlock("```x```{}") == Some("x")
  {
    var content := "```x```{}";
    assert OccursAt(content, Fence, 0);
    assert IndexOfFrom(content, Fence, 0) == 0;
    assert content[3..7][0] == 'x';
    assert content[3..7] != "json";
    assert content[3..] == "x```{}";
    assert LeadingWhitespace(content[3..]) == 0;
    assert content[3..6][0] == 'x';
    assert !OccursAt(content, Fence, 3);
    assert OccursAt(content, Fence, 4);
    assert IndexOfFrom(content, Fence, 3) == 4;
    assert content[3..4] == "x";
  }

  const JsonParseErrorMessage: string := "JSON.parse: the text is not valid JSON"

  /**
   * `safeParseJSON`: the decoded value of the extracted text. It succeeds on text that parses as
   * a whole, and fails when no piece of the text parses.
   */
  function SafeParseJson<T>(content: string, isJson: string -> bool, decode: string -> T): (r: Result<T, string>)
    ensures isJson(content) ==> r == Ok(decode(content))
    ensures r.Ok? ==> exists t :: IsSubstring(t, content) && isJson(t) && r.value == decode(t)
    ensures (forall t :: IsSubstring(t, content) ==> !isJson(t)) ==> r == Err(JsonParseErrorMessage)
    ensures r.Ok? <==> isJson(ExtractJson(content, isJson))
    ensures r.Ok? ==> r.value == decode(ExtractJson(content, isJson))
    ensures r.Err? ==> r.error == JsonParseErrorMessage
  {
    var extracted := ExtractJson(content, isJson);
    if isJson(extracted) then
      SliceIsSubstring(content, 0, |content|);
      assert content[0..|content|] == content;
      Ok(decode(extracted))
    else Err(JsonParseErrorMessage)
  }

  // ---------------------------------------------------------------------------------------------
  // The language-model capability

  /** A reply of the model call: the call threw, or it returned a message whose content may be missing. */
  datatype LlmReply = CallFailed(reason: string) | Replied(content: Option<string>)

  datatype TitleInput = TitleInput(
    scenario: Scenario,
    emotion: Emotion,
    personaType: PersonaType,
    schoolRegion: Option<SchoolRegion>,
    schoolName: Option<string>,
    customInput: Option<string>)

  datatype TitleCandidate = TitleCandidate(text: string, score: int, emoji: string, reason: string)

  /** The title request as the model sees it: the input and the item bounds of the output schema. */
  datatype TitleRequest = TitleRequest(input: TitleInput, minItems: int, maxItems: int)

  datatype NoteInput = NoteInput(
    title: string,
    scenario: Scenario,
    emotion: Emotion,
    personaType: PersonaType,
    schoolName: Option<string>,
    customInput: Option<string>)

  datatype NoteStructure = NoteStructure(opening: string, body: string, interaction: string)
  datatype Note = Note(content: string, structure: NoteStructure)

  datatype CoverInput = CoverInput(title: string, scenario: Scenario, emotion: Emotion)

  datatype ColorScheme = ColorScheme(primary: string, secondary: string, highlight: string, text: string, background: string)

  /** The cover fields the model returns; `colorScheme` is whatever scheme it may have added. */
  datatype CoverDraft = CoverDraft(
    mainText: string,
    subText: string,
    highlightWords: seq<string>,
    layout: string,
    coverType: string,
    template: string,
    designTips: seq<string>,
    colorScheme: Option<ColorScheme>)

  datatype Cover = Cover(
    mainText: string,
    subText: string,
    colorScheme: ColorScheme,
    layout: string,
    coverType: string,
    designTips: seq<string>,
    template: string,
    highlightWords: seq<string>)

  /** The model capability: a reply per request, and JSON parsing split into a test and a decoder. */
  datatype Llm = Llm(
    isJson: string -> bool,
    titles: TitleRequest -> LlmReply,
    decodeTitles: string -> seq<TitleCandidate>,
    note: NoteInput -> LlmReply,
    decodeNote: string -> Note,
    cover: CoverInput -> LlmReply,
    decodeCover: string -> CoverDraft)

  const EmptyResponseMessage: string := "AI response is empty"

  /**
   * What every generator does with a reply: a failed call propagates, a missing or empty content
   * throws "AI response is empty", and otherwise the content goes through `safeParseJSON`.
   */
  function ReplyToResult<T>(reply: LlmReply, isJson: string -> bool, decode: string -> T): (r: Result<T, string>)
    ensures reply.CallFailed? ==> r == Err(reply.reason)
    ensures reply == Replied(None) || reply == Replied(Some("")) ==> r == Err(EmptyResponseMessage)
    ensures r.Ok? ==> reply.Replied? && reply.content.Some? && reply.content.value != ""
    ensures r.Ok? ==> exists t :: IsSubstring(t, reply.content.value) && isJson(t) && r.value == decode(t)
    ensures reply.Replied? && reply.content.Some? && reply.content.value != "" && isJson(reply.content.value) ==>
      r == Ok(decode(reply.content.value))
    ensures reply.Replied? && reply.content.Some? && reply.content.value != "" ==>
      r == SafeParseJson(reply.content.value, isJson, decode)
  {
    match reply
    case CallFailed(reason) => Err(reason)
    case Replied(content) =>
      if content.None? || content.value == "" then Err(EmptyResponseMessage)
      else SafeParseJson(content.value, isJson, decode)
  }

  // ---------------------------------------------------------------------------------------------
  // Titles

  const MaxTitleCount: int := 100

  /** `Math.max(1, Math.min(count, 100))`. */
  function ClampTitleCount(count: int): (c: int)
    ensures 1 <= c <= MaxTitleCount
    ensures 1 <= count <= MaxTitleCount ==> c == count
    ensures count < 1 ==> c == 1
    ensures count > MaxTitleCount ==> c == MaxTitleCount
  {
    Max(1, Min(count, MaxTitleCount))
  }

  /** The request sent for `count` titles: the output schema asks for exactly the clamped count. */
  function TitleRequestFor(input: TitleInput, count: int): (req: TitleRequest)
    ensures req.input == input
    ensures req.minItems == req.maxItems == ClampTitleCount(count)
    ensures 1 <= req.minItems <= MaxTitleCount
  {
    var clampedCount := ClampTitleCount(count);
    TitleRequest(input, clampedCount, clampedCount)
  }

  /** The hot posts quoted in the title prompt: those sharing the scenario or the emotion, at most five. */
  function RelevantHotContent(input: TitleInput): (r: seq<HotContent>)
    ensures |r| == Min(5, |Filter(HotContentDatabase, SharesScenarioOrEmotion(input))|)
    ensures r == Filter(HotContentDatabase, SharesScenarioOrEmotion(input))[..|r|]
  {
    RelevantIn(HotContentDatabase, input)
  }

  /** `item.scenario === input.scenario || item.emotion === input.emotion`. */
  function SharesScenarioOrEmotion(input: TitleInput): HotContent -> bool
  {
    (item: HotContent) => item.scenario == ScenarioKey(input.scenario) || item.emotion == EmotionKey(input.emotion)
  }

  /**
   * `data.filter(...).slice(0, 5)`: the first five entries of `data` that share the input's
   * scenario or emotion, in the order of `data`, or all of them when there are fewer.
   */
  function RelevantIn(data: seq<HotContent>, input: TitleInput): (r: seq<HotContent>)
    ensures |r| == Min(5, |Filter(data, SharesScenarioOrEmotion(input))|)
    ensures r == Filter(data, SharesScenarioOrEmotion(input))[..|r|]
    ensures forall k :: 0 <= k < |r| ==> r[k] in data
    ensures forall k :: 0 <= k < |r| ==>
      r[k].scenario == ScenarioKey(input.scenario) || r[k].emotion == EmotionKey(input.emotion)
  {
    var matching := Filter(data, SharesScenarioOrEmotion(input));
    assert forall k :: 0 <= k < |matching| ==> SharesScenarioOrEmotion(input)(matching[k]);
    Take(matching, 5)
  }

  /** When at most five entries match, every matching entry is quoted. */
  lemma RelevantKeepsFewMatches(data: seq<HotContent>, input: TitleInput, x: HotContent)
    requires |Filter(data, SharesScenarioOrEmotion(input))| <= 5
    requires x in data && SharesScenarioOrEmotion(input)(x)
    ensures x in RelevantIn(data, input)
  {
    FilterMember(data, SharesScenarioOrEmotion(input), x);
  }

  /** `generateTitlesWithCount`: one model call whose schema asks for the clamped count. */
  function GenerateTitlesWithCount(input: TitleInput, count: int, llm: Llm): (r: Result<seq<TitleCandidate>, string>)
    ensures r == ReplyToResult(llm.titles(TitleRequest(input, ClampTitleCount(count), ClampTitleCount(count))),
                               llm.isJson, llm.decodeTitles)
  {
    ReplyToResult(llm.titles(TitleRequestFor(input, count)), llm.isJson, llm.decodeTitles)
  }

  /** `generateTitles`: the same call with a schema of exactly ten titles. */
  function GenerateTitles(input: TitleInput, llm: Llm): (r: Result<seq<TitleCandidate>, string>)
    ensures r == ReplyToResult(llm.titles(TitleRequest(input, 10, 10)), llm.isJson, llm.decodeTitles)
  {
    GenerateTitlesWithCount(input, 10, llm)
  }

  // ---------------------------------------------------------------------------------------------
  // Note

  /** `generateNote`: the parsed note of one model call. */
  function GenerateNote(input: NoteInput, llm: Llm): (r: Result<Note, string>)
    ensures llm.note(input) == Replied(None) || llm.note(input) == Replied(Some("")) ==>
      r == Err(EmptyResponseMessage)
    ensures r.Ok? ==>
      && llm.note(input).Replied? && llm.note(input).content.Some?
      && exists t :: IsSubstring(t, llm.note(input).content.value) && llm.isJson(t) && r.value == llm.decodeNote(t)
    ensures llm.note(input).CallFailed? ==> r == Err(llm.note(input).reason)
    ensures llm.note(input).Replied? && llm.note(input).content.Some? && llm.note(input).content.value != "" ==>
      r == SafeParseJson(llm.note(input).content.value, llm.isJson, llm.decodeNote)
  {
    ReplyToResult(llm.note(input), llm.isJson, llm.decodeNote)
  }

  // ---------------------------------------------------------------------------------------------
  // Hashtags

  datatype HashtagInput = HashtagInput(
    scenario: Scenario,
    title: string,
    schoolRegion: Option<SchoolRegion>,
    schoolName: Option<string>)

  datatype TagCategories = TagCategories(general: seq<string>, scenario: seq<string>, school: seq<string>, appeal: seq<string>)
  datatype Hashtags = Hashtags(hashtags: seq<string>, categories: TagCategories)

  /** `s.slice(0, n)`: the first `n` elements, or all of them when there are fewer. */
  function Take<T>(s: seq<T>, n: nat): (r: seq<T>)
    ensures |r| == Min(|s|, n)
    ensures r == s[..|r|]
  {
    if |s| <= n then s else s[..n]
  }

  /** A school name was given: `input.schoolName` is truthy. */
  predicate HasSchoolName(input: HashtagInput)
  {
    input.schoolName.Some? && input.schoolName.value != ""
  }

  /** The region has its own tags: `input.schoolRegion in HASHTAG_LIBRARY.school`. */
  predicate HasRegionTags(input: HashtagInput)
  {
    input.schoolRegion.Some? && input.schoolRegion.value in HashtagLibrary.school
  }

  /** The school tags before slicing: the school's own tag first, then the region's tags. */
  function SchoolTags(input: HashtagInput): seq<string>
  {
    var regionTags := if HasRegionTags(input) then HashtagLibrary.school[input.schoolRegion.value] else [];
    if HasSchoolName(input) then ["#" + input.schoolName.value] + regionTags else regionTags
  }

  /**
   * `generateHashtags`: three general tags, three scenario tags, up to four school tags and two
   * appeal tags; the model is not consulted.
   */
  function GenerateHashtags(input: HashtagInput): (r: Hashtags)
    ensures r.hashtags == r.categories.general + r.categories.scenario + r.categories.school + r.categories.appeal
    ensures r.categories.general == HashtagLibrary.general[..3]
    ensures r.categories.scenario == ScenarioTags(input.scenario)[..3]
    ensures r.categories.appeal == HashtagLibrary.appeal[..2]
    ensures HasSchoolName(input) ==>
      |r.categories.school| >= 1 && r.categories.school[0] == "#" + input.schoolName.value
    ensures !HasRegionTags(input) ==>
      r.categories.school == (if HasSchoolName(input) then ["#" + input.schoolName.value] else [])
    ensures HasRegionTags(input) ==>
      && |r.categories.school| == 4
      && r.categories.school[(if HasSchoolName(input) then 1 else 0)..] ==
         HashtagLibrary.school[input.schoolRegion.value][..(if HasSchoolName(input) then 3 else 4)]
  {
    HashtagTableSizes(input.scenario);
    var schoolTags := SchoolTags(input);
    var categories := TagCategories(
      Take(HashtagLibrary.general, 3),
      Take(ScenarioTags(input.scenario), 3),
      Take(schoolTags, 4),
      Take(HashtagLibrary.appeal, 2));
    Hashtags(categories.general + categories.scenario + categories.school + categories.appeal, categories)
  }

  /** The number of tags is 12 with region tags, 9 with only a school name, 8 otherwise. */
  lemma HashtagCount(input: HashtagInput)
    ensures |GenerateHashtags(input).hashtags| ==
      if HasRegionTags(input) then 12 else if HasSchoolName(input) then 9 else 8
    ensures |GenerateHashtags(input).hashtags| in {8, 9, 12}
  {
    HashtagTableSizes(input.scenario);
  }

  /** Singapore and the rest of Europe have no region tags: only a school name adds a school tag. */
  lemma HashtagsWithoutRegionTags(input: HashtagInput)
    requires input.schoolRegion == Some(SG) || input.schoolRegion == Some(EU)
    ensures GenerateHashtags(input).categories.school ==
      if HasSchoolName(input) then ["#" + input.schoolName.value] else []
  {
    HashtagRegions();
  }

  // ---------------------------------------------------------------------------------------------
  // Cover

  /** `EMOTION_COLOR_SCHEMES`: the fixed colour scheme of each emotion. */
  function EmotionColorScheme(e: Emotion): ColorScheme
  {
    match e
    case Empathy => ColorScheme("#FFF8E1", "#FFE082", "#FFD54F", "#1a1a1a", "#FFFFFF")
    case Warning => ColorScheme("#FFEBEE", "#FFCDD2", "#FF5252", "#C62828", "#FFFFFF")
    case Help => ColorScheme("#E3F2FD", "#BBDEFB", "#2196F3", "#1a1a1a", "#FFFFFF")
    case Success => ColorScheme("#E8F5E9", "#C8E6C9", "#4CAF50", "#1a1a1a", "#FFFFFF")
    case Critic => ColorScheme("#F3E5F5", "#E1BEE7", "#9C27B0", "#1a1a1a", "#FFFFFF")
  }

  /** `{ ...result, colorScheme }`: the model's fields, with the emotion's scheme replacing any it gave. */
  function MergeColorScheme(draft: CoverDraft, scheme: ColorScheme): (c: Cover)
    ensures c.colorScheme == scheme
    ensures KeepsDraftFields(c, draft)
  {
    Cover(draft.mainText, draft.subText, scheme, draft.layout, draft.coverType, draft.designTips,
          draft.template, draft.highlightWords)
  }

  /** Every field of the cover other than its colour scheme is the draft's. */
  predicate KeepsDraftFields(c: Cover, d: CoverDraft)
  {
    && c.mainText == d.mainText && c.subText == d.subText
    && c.highlightWords == d.highlightWords && c.layout == d.layout
    && c.coverType == d.coverType && c.template == d.template
    && c.designTips == d.designTips
  }

  /** The parsed draft of the cover call. */
  function CoverDraftOf(input: CoverInput, llm: Llm): Result<CoverDraft, string>
  {
    ReplyToResult(llm.cover(input), llm.isJson, llm.decodeCover)
  }

  /**
   * `generateCover`: the parsed cover of one model call, coloured by the emotion's fixed scheme
   * whatever scheme the model proposed.
   */
  function GenerateCover(input: CoverInput, llm: Llm): (r: Result<Cover, string>)
    ensures r.Ok? <==> CoverDraftOf(input, llm).Ok?
    ensures r.Err? ==> r.error == CoverDraftOf(input, llm).error
    ensures r.Ok? ==> r.value.colorScheme == EmotionColorScheme(input.emotion)
    ensures r.Ok? ==> KeepsDraftFields(r.value, CoverDraftOf(input, llm).value)
  {
    var colorScheme := EmotionColorScheme(input.emotion);
    var draft := CoverDraftOf(input, llm);
    if draft.Err? then Err(draft.error) else Ok(MergeColorScheme(draft.value, colorScheme))
  }
}
