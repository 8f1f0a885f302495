/**
 * The batch-generation pipeline and the hot-post listing of the API router.
 *
 * `AsyncPool` is the bounded work pool as a sequential scheduler: tasks start in index order,
 * every result goes to its own slot, and a `Promise.race` is a step in which a non-empty set of
 * running tasks settles, the first of them deciding the race. The batch mutation is proved equal to
 * a specification function (`BatchSpec`) whatever the pool limit and the completion order are.
 */
module Routers {
  import opened Common
  import opened Strings
  import opened Xhs
  import opened Ai

  // ---------------------------------------------------------------------------------------------
  // The work pool

  /** The pool limit that actually bounds the pool: a limit below one still lets one task run. */
  function EffectiveLimit(poolLimit: int): (l: int)
    ensures l >= 1
    ensures poolLimit >= 1 ==> l == poolLimit
  {
    Max(1, poolLimit)
  }

  /** What slot `k` holds once task `k` has settled: its value, or nothing when it failed. */
  function Expected<T, R>(items: seq<T>, iteratorFn: (T, nat) -> Result<R, string>, k: nat): Option<R>
    requires k < |items|
  {
    var outcome := iteratorFn(items[k], k);
    if outcome.Ok? then Some(outcome.value) else None
  }

  /**
   * `asyncPool(poolLimit, items, iteratorFn)`.
   *
   * `started` lists the tasks in the order they were started and `peak` is the largest number of
   * tasks ever running at once. A race settles a non-empty set of running tasks; when the first of
   * them failed, the pool rejects with its error; the failures of the others go unobserved and
   * leave their slots empty. The final `Promise.all` rejects when any task still running fails.
   */
  method AsyncPool<T, R>(poolLimit: int, items: seq<T>, iteratorFn: (T, nat) -> Result<R, string>)
    returns (ret: Result<seq<Option<R>>, string>, ghost started: seq<nat>, ghost peak: nat)
    ensures |started| <= |items| && forall k :: 0 <= k < |started| ==> started[k] == k
    ensures ret.Ok? ==> |started| == |items|
    ensures peak == Min(|items|, EffectiveLimit(poolLimit))
    ensures ret.Ok? ==> |ret.value| == |items|
    ensures ret.Ok? ==> forall k :: 0 <= k < |items| ==> ret.value[k] == Expected(items, iteratorFn, k)
    ensures ret.Err? ==> exists k :: 0 <= k < |items| && iteratorFn(items[k], k) == Err(ret.error)
    ensures (forall k :: 0 <= k < |items| ==> iteratorFn(items[k], k).Ok?) ==> ret.Ok?
  {
    var limit := EffectiveLimit(poolLimit);
    var slots := new Option<R>[|items|](_ => None);
    var executing: set<nat> := {};
    started := [];
    peak := 0;
    var i := 0;
    while i < |items|
      invariant 0 <= i <= |items|
      invariant slots.Length == |items|
      invariant |started| == i && forall k :: 0 <= k < i ==> started[k] == k
      invariant forall k :: k in executing ==> k < i
      invariant |executing| < limit
      invariant i < limit ==> |executing| == i
      invariant peak == Min(i, limit)
      invariant forall k :: 0 <= k < i && k !in executing ==> slots[k] == Expected(items, iteratorFn, k)
    {
      started := started + [i];
      if |executing| + 1 > peak {
        peak := |executing| + 1;
      }
      var failure;
      failure, executing := StartTask(slots, executing, i, poolLimit, items, iteratorFn);
      if failure.Some? {
        // A race only happens once the pool is full, so the peak is already the limit.
        assert peak == limit <= i + 1 <= |items|;
        ret := Err(failure.value);
        return;
      }
      i := i + 1;
    }
    ret := AwaitAll(slots, executing, items, iteratorFn);
  }

  /**
   * `await Promise.all(executing)`, then `return ret`: rejects with the error of a still running
   * task that fails, and otherwise resolves with every slot filled.
   */
  method AwaitAll<T, R>(slots: array<Option<R>>, executing: set<nat>, items: seq<T>, iteratorFn: (T, nat) -> Result<R, string>)
    returns (ret: Result<seq<Option<R>>, string>)
    requires slots.Length == |items|
    requires forall s :: s in executing ==> s < |items|
    requires forall k :: 0 <= k < |items| && k !in executing ==> slots[k] == Expected(items, iteratorFn, k)
    modifies slots
    ensures ret.Ok? ==> |ret.value| == |items|
    ensures ret.Ok? ==> forall k :: 0 <= k < |items| ==> ret.value[k] == Expected(items, iteratorFn, k)
    ensures ret.Err? ==> exists k :: k in executing && k < |items| && iteratorFn(items[k], k) == Err(ret.error)
    ensures (forall k :: k in executing && k < |items| ==> iteratorFn(items[k], k).Ok?) ==> ret.Ok?
  {
    if exists s :: s in executing && s < |items| && iteratorFn(items[s], s).Err? {
      var failed :| failed in executing && failed < |items| && iteratorFn(items[failed], failed).Err?;
      return Err(iteratorFn(items[failed], failed).error);
    }
    Settle(slots, executing, items, iteratorFn);
    ret := Ok(slots[..]);
  }

  /**
   * One round of the loop: task `i` starts and joins the running set; when the set has reached
   * the pool limit, the pool waits for a race. Racing happens exactly when the pool is full.
   */
  method StartTask<T, R>(slots: array<Option<R>>, executing: set<nat>, i: nat, poolLimit: int,
                         items: seq<T>, iteratorFn: (T, nat) -> Result<R, string>)
    returns (failure: Option<string>, running: set<nat>)
    requires slots.Length == |items| && i < |items|
    requires forall k :: k in executing ==> k < i
    requires |executing| < EffectiveLimit(poolLimit)
    modifies slots
    ensures forall k :: k in running ==> k <= i
    ensures |running| < EffectiveLimit(poolLimit)
    ensures |executing| + 1 < EffectiveLimit(poolLimit) ==> failure.None? && running == executing + {i}
    ensures |executing| + 1 == EffectiveLimit(poolLimit) || failure.None?
    ensures failure.Some? ==> exists k :: 0 <= k <= i && iteratorFn(items[k], k) == Err(failure.value)
    ensures failure.None? ==> forall k :: 0 <= k <= i && k !in running && (k in executing || k == i) ==>
      slots[k] == Expected(items, iteratorFn, k)
    ensures forall k :: 0 <= k < slots.Length && k !in executing && k != i ==> slots[k] == old(slots[k])
  {
    running := executing + {i};
    assert i !in executing;
    failure := None;
    if |running| >= poolLimit {
      failure, running := Race(slots, running, items, iteratorFn);
    }
  }

  /**
   * `await Promise.race(executing)`: a non-empty set of the running tasks settles. When the first
   * of them failed the race rejects with its error; otherwise every settled task's slot records
   * its outcome, a failure of any but the first going unobserved. The rest keep running.
   */
  method Race<T, R>(slots: array<Option<R>>, executing: set<nat>, items: seq<T>, iteratorFn: (T, nat) -> Result<R, string>)
    returns (failure: Option<string>, running: set<nat>)
    requires slots.Length == |items| && executing != {}
    requires forall s :: s in executing ==> s < |items|
    modifies slots
    ensures running <= executing && |running| < |executing|
    ensures failure.Some? ==> exists k :: k in executing && k < |items| && iteratorFn(items[k], k) == Err(failure.value)
    ensures failure.None? ==> forall k :: 0 <= k < slots.Length && k in executing && k !in running ==>
      slots[k] == Expected(items, iteratorFn, k)
    ensures forall k :: 0 <= k < slots.Length && k !in executing ==> slots[k] == old(slots[k])
  {
    var settledNow: set<nat> :| settledNow <= executing && settledNow != {};
    var winner :| winner in settledNow;
    SmallerAfterRemoval(executing, settledNow);
    running := executing - settledNow;
    var winnerOutcome := iteratorFn(items[winner], winner);
    if winnerOutcome.Err? {
      return Some(winnerOutcome.error), running;
    }
    Settle(slots, settledNow, items, iteratorFn);
    failure := None;
  }

  /** Records the outcome of every task in `settled` in its slot; the other slots keep theirs. */
  method Settle<T, R>(slots: array<Option<R>>, settled: set<nat>, items: seq<T>, iteratorFn: (T, nat) -> Result<R, string>)
    requires slots.Length == |items|
    requires forall s :: s in settled ==> s < |items|
    modifies slots
    ensures forall k :: 0 <= k < slots.Length && k in settled ==> slots[k] == Expected(items, iteratorFn, k)
    ensures forall k :: 0 <= k < slots.Length && k !in settled ==> slots[k] == old(slots[k])
  {
    forall s | s in settled {
      slots[s] := Expected(items, iteratorFn, s);
    }
  }

  /** Removing a non-empty subset makes a set smaller. */
  lemma SmallerAfterRemoval(a: set<nat>, b: set<nat>)
    requires b <= a && b != {}
    ensures |a - b| < |a|
  {
    var x :| x in b;
    assert a - b <= a - {x};
    assert |a - {x}| == |a| - 1;
    SubsetCardinality(a - b, a - {x});
  }

  lemma {:induction false} SubsetCardinality(a: set<nat>, b: set<nat>)
    requires a <= b
    ensures |a| <= |b|
    decreases |b|
  {
    if a != {} {
      var x :| x in a;
      SubsetCardinality(a - {x}, b - {x});
    }
  }

  // ---------------------------------------------------------------------------------------------
  // Batch generation

  const MinBatchCount: int := 1
  const MaxBatchCount: int := 50
  const DefaultConcurrency: int := 3
  const MaxConcurrency: int := 10

  /** The input of the `generate.batch` mutation. */
  datatype BatchInput = BatchInput(
    count: int,
    scenario: Scenario,
    emotion: Emotion,
    personaType: PersonaType,
    schoolRegion: Option<SchoolRegion>,
    schoolName: Option<string>,
    customInput: Option<string>)

  /** One generated post. */
  datatype BatchItem = BatchItem(
    title: string,
    note: string,
    hashtags: seq<string>,
    cover: Cover,
    scenario: Scenario,
    emotion: Emotion,
    personaType: PersonaType,
    schoolName: Option<string>)

  /** The generation-history row written for each post. */
  datatype HistoryEntry = HistoryEntry(
    userId: int,
    kind: string,
    scenario: Scenario,
    emotion: Emotion,
    input: BatchInput,
    output: BatchItem)

  /** The calls the mutation makes: the language model and the history write. */
  datatype Services = Services(llm: Llm, createGeneration: HistoryEntry -> Outcome)

  datatype BatchResult = BatchResult(items: seq<BatchItem>, count: int)

  /**
   * Why the mutation fails: the input is rejected by its schema, the title call fails, no
   * non-empty title came back, or every post failed.
   */
  datatype BatchError = InvalidInput | TitlesFailed(reason: string) | NoValidTitles | AllFailed

  function BatchErrorMessage(e: BatchError): string
  {
    match e
    case InvalidInput => "count must be between 1 and 50"
    case TitlesFailed(reason) => reason
    case NoValidTitles => "标题生成失败：未返回有效标题"
    case AllFailed => "批量生成全部失败，请检查 AI 配置或网络状态"
  }

  /**
   * `Math.max(1, Math.min(10, Number(BATCH_CONCURRENCY || 3)))`, with the variable already read
   * as a whole number; `None` is an unset or empty variable.
   */
  function ClampConcurrency(batchConcurrency: Option<int>): (c: int)
    ensures 1 <= c <= MaxConcurrency
    ensures batchConcurrency.None? ==> c == DefaultConcurrency
    ensures batchConcurrency.Some? && 1 <= batchConcurrency.value <= MaxConcurrency ==> c == batchConcurrency.value
    ensures batchConcurrency.Some? && batchConcurrency.value < 1 ==> c == 1
    ensures batchConcurrency.Some? && batchConcurrency.value > MaxConcurrency ==> c == MaxConcurrency
  {
    var concurrency := if batchConcurrency.Some? then batchConcurrency.value else DefaultConcurrency;
    Max(1, Min(MaxConcurrency, concurrency))
  }

  function Texts(candidates: seq<TitleCandidate>): (r: seq<string>)
    ensures |r| == |candidates|
    ensures forall k :: 0 <= k < |r| ==> r[k] == candidates[k].text
  {
    seq(|candidates|, k requires 0 <= k < |candidates| => candidates[k].text)
  }

  /** `titles.map(t => t.text).filter(Boolean)`: the non-empty title texts, in the order returned. */
  function NonEmptyTexts(candidates: seq<TitleCandidate>): (r: seq<string>)
    ensures forall k :: 0 <= k < |r| ==> r[k] != ""
    ensures forall k :: 0 <= k < |r| ==> exists j :: 0 <= j < |candidates| && candidates[j].text == r[k]
    ensures forall j :: 0 <= j < |candidates| && candidates[j].text != "" ==> candidates[j].text in r
    ensures r == [] <==> forall j :: 0 <= j < |candidates| ==> candidates[j].text == ""
    ensures forall t :: multiset(r)[t] == if t != "" then multiset(Texts(candidates))[t] else 0
  {
    var texts := Texts(candidates);
    var r := Filter(texts, (t: string) => t != "");
    forall t ensures multiset(r)[t] == if t != "" then multiset(texts)[t] else 0 {
      FilterCount(texts, (t: string) => t != "", t);
    }
    assert forall k :: 0 <= k < |r| ==> r[k] in texts;
    if r == [] then
      assert forall j :: 0 <= j < |candidates| ==> texts[j] == candidates[j].text;
      r
    else
      assert r[0] in r;
      r
  }

  /** One title keeps its text exactly when the text is non-empty. */
  lemma NonEmptyTextsSingle(c: TitleCandidate)
    ensures NonEmptyTexts([c]) == if c.text != "" then [c.text] else []
  {
    assert Texts([c]) == [c.text];
  }

  /** Dropping empty texts distributes over concatenation, so the kept titles stay in their order. */
  lemma NonEmptyTextsAppend(a: seq<TitleCandidate>, b: seq<TitleCandidate>)
    ensures NonEmptyTexts(a + b) == NonEmptyTexts(a) + NonEmptyTexts(b)
  {
    assert Texts(a + b) == Texts(a) + Texts(b);
    FilterAppend(Texts(a), Texts(b), (t: string) => t != "");
  }

  function TitleInputOf(input: BatchInput): TitleInput
  {
    TitleInput(input.scenario, input.emotion, input.personaType, input.schoolRegion, input.schoolName, input.customInput)
  }

  function NoteFor(input: BatchInput, title: string, llm: Llm): Result<Note, string>
  {
    GenerateNote(NoteInput(title, input.scenario, input.emotion, input.personaType, input.schoolName, input.customInput), llm)
  }

  function CoverFor(input: BatchInput, title: string, llm: Llm): Result<Cover, string>
  {
    GenerateCover(CoverInput(title, input.scenario, input.emotion), llm)
  }

  /** The post assembled from a title, its note and its cover. */
  function ComposeItem(input: BatchInput, title: string, note: Note, cover: Cover): (item: BatchItem)
    ensures item.title == title && item.note == note.content && item.cover == cover
    ensures && item.scenario == input.scenario && item.emotion == input.emotion
            && item.personaType == input.personaType && item.schoolName == input.schoolName
    ensures item.hashtags == GenerateHashtags(HashtagInput(input.scenario, title, input.schoolRegion, input.schoolName)).hashtags
  {
    var hashtagsResult := GenerateHashtags(HashtagInput(input.scenario, title, input.schoolRegion, input.schoolName));
    BatchItem(title, note.content, hashtagsResult.hashtags, cover, input.scenario, input.emotion, input.personaType, input.schoolName)
  }

  /** The history row of a post; the row records the whole batch input. */
  function HistoryFor(input: BatchInput, userId: int, item: BatchItem): HistoryEntry
  {
    HistoryEntry(userId, "title", input.scenario, input.emotion, input, item)
  }

  /**
   * The per-post worker: note, hashtags and cover for `title`, then the history write, all inside
   * one `try`; any failure, the history write's included, makes the post `null`.
   */
  function ItemOrNull(input: BatchInput, title: string, services: Services, userId: int): (r: Option<BatchItem>)
    ensures NoteFor(input, title, services.llm).Err? || CoverFor(input, title, services.llm).Err? ==> r.None?
    ensures r.Some? ==>
      && NoteFor(input, title, services.llm).Ok? && CoverFor(input, title, services.llm).Ok?
      && r.value == ComposeItem(input, title, NoteFor(input, title, services.llm).value, CoverFor(input, title, services.llm).value)
      && services.createGeneration(HistoryFor(input, userId, r.value)).Done?
    ensures NoteFor(input, title, services.llm).Ok? && CoverFor(input, title, services.llm).Ok? && r.None? ==>
      var item := ComposeItem(input, title, NoteFor(input, title, services.llm).value, CoverFor(input, title, services.llm).value);
      services.createGeneration(HistoryFor(input, userId, item)).Failed?
    ensures r.Some? ==> r.value.title == title && r.value.cover.colorScheme == EmotionColorScheme(input.emotion)
  {
    var noteResult := NoteFor(input, title, services.llm);
    var coverResult := CoverFor(input, title, services.llm);
    if noteResult.Err? || coverResult.Err? then None
    else
      var fullResult := ComposeItem(input, title, noteResult.value, coverResult.value);
      var written := services.createGeneration(HistoryFor(input, userId, fullResult));
      if written.Failed? then None else Some(fullResult)
  }

  /** The worker's result for every title, by position. */
  function RawResults(input: BatchInput, titles: seq<string>, services: Services, userId: int): (r: seq<Option<BatchItem>>)
    ensures |r| == |titles|
    ensures forall k :: 0 <= k < |titles| ==> r[k] == ItemOrNull(input, titles[k], services, userId)
  {
    seq(|titles|, k requires 0 <= k < |titles| => ItemOrNull(input, titles[k], services, userId))
  }

  /** `rawResults.filter(item => item !== null)`: the posts that were generated, in order. */
  function Survivors<X>(raw: seq<Option<X>>): (r: seq<X>)
    ensures |r| <= |raw|
    ensures forall k :: 0 <= k < |r| ==> Some(r[k]) in raw
    ensures r == [] <==> forall k :: 0 <= k < |raw| ==> raw[k].None?
  {
    if raw == [] then []
    else
      var rest := Survivors(raw[1..]);
      if raw[0].Some? then
        assert forall k :: 0 <= k < |rest| ==> Some(rest[k]) in raw[1..];
        [raw[0].value] + rest
      else
        assert forall k :: 1 <= k < |raw| ==> raw[k] == raw[1..][k - 1];
        rest
  }

  /** Dropping the nulls keeps the order: it distributes over concatenation. */
  lemma {:induction false} SurvivorsAppend<X>(a: seq<Option<X>>, b: seq<Option<X>>)
    ensures Survivors(a + b) == Survivors(a) + Survivors(b)
  {
    if a == [] {
      assert a + b == b;
    } else {
      assert (a + b)[1..] == a[1..] + b;
      SurvivorsAppend(a[1..], b);
    }
  }

  /** The titles the batch works on: none when the title call fails. */
  function BatchTitles(input: BatchInput, services: Services): (titles: seq<string>)
    ensures forall k :: 0 <= k < |titles| ==> titles[k] != ""
  {
    var titlesResult := GenerateTitlesWithCount(TitleInputOf(input), input.count, services.llm);
    if titlesResult.Err? then [] else NonEmptyTexts(titlesResult.value)
  }

  /** What `generate.batch` returns or throws, independent of the pool limit and completion order. */
  function BatchSpec(input: BatchInput, services: Services, userId: int): Result<BatchResult, BatchError>
  {
    if input.count < MinBatchCount || input.count > MaxBatchCount then Err(InvalidInput)
    else
      var titlesResult := GenerateTitlesWithCount(TitleInputOf(input), input.count, services.llm);
      if titlesResult.Err? then Err(TitlesFailed(titlesResult.error))
      else
        var titles := NonEmptyTexts(titlesResult.value);
        if titles == [] then Err(NoValidTitles)
        else
          var results := Survivors(RawResults(input, titles, services, userId));
          if results == [] then Err(AllFailed) else Ok(BatchResult(results, |results|))
  }

  /**
   * The `generate.batch` mutation. `started` lists the posts whose worker was started; none is
   * started when the input, the title call or the title list fails, and every title's is otherwise.
   */
  method GenerateBatch(input: BatchInput, services: Services, userId: int, batchConcurrency: Option<int>)
    returns (r: Result<BatchResult, BatchError>, ghost started: seq<nat>)
    ensures r == BatchSpec(input, services, userId)
    ensures r.Err? && !r.error.AllFailed? ==> started == []
    ensures r.Ok? || r == Err(AllFailed) ==>
      |started| == |BatchTitles(input, services)| && forall k :: 0 <= k < |started| ==> started[k] == k
  {
    started := [];
    if input.count < MinBatchCount || input.count > MaxBatchCount {
      return Err(InvalidInput), started;
    }
    var titlesResult := GenerateTitlesWithCount(TitleInputOf(input), input.count, services.llm);
    if titlesResult.Err? {
      return Err(TitlesFailed(titlesResult.error)), started;
    }
    var titles := NonEmptyTexts(titlesResult.value);
    if |titles| == 0 {
      return Err(NoValidTitles), started;
    }
    var limit := ClampConcurrency(batchConcurrency);
    var worker := (title: string, i: nat) => Ok(ItemOrNull(input, title, services, userId));
    var pooled, poolStarted, peak := AsyncPool(limit, titles, worker);
    started := poolStarted;
    // The worker never rejects, so the pool resolves with every slot filled.
    assert forall k :: 0 <= k < |titles| ==> worker(titles[k], k).Ok?;
    var slots := pooled.value;
    var rawResults := seq(|slots|, k requires 0 <= k < |slots| => if slots[k].Some? then slots[k].value else None);
    assert rawResults == RawResults(input, titles, services, userId);
    var results := Survivors(rawResults);
    if |results| == 0 {
      return Err(AllFailed), started;
    }
    return Ok(BatchResult(results, |results|)), started;
  }

  /** A count outside 1..50 is refused before any call is made. */
  lemma BatchRejectsCount(input: BatchInput, services: Services, userId: int)
    requires input.count < MinBatchCount || input.count > MaxBatchCount
    ensures BatchSpec(input, services, userId) == Err(InvalidInput)
  {
  }

  /** No non-empty title means the title error, not the all-failed error. */
  lemma BatchWithoutTitles(input: BatchInput, services: Services, userId: int)
    requires MinBatchCount <= input.count <= MaxBatchCount
    requires GenerateTitlesWithCount(TitleInputOf(input), input.count, services.llm).Ok?
    requires forall j :: 0 <= j < |GenerateTitlesWithCount(TitleInputOf(input), input.count, services.llm).value| ==>
      GenerateTitlesWithCount(TitleInputOf(input), input.count, services.llm).value[j].text == ""
    ensures BatchSpec(input, services, userId) == Err(NoValidTitles)
  {
  }

  /**
   * A successful batch holds between one post and one post per title, `count` is the number of
   * posts, and every post carries one of the titles and the input's scenario, emotion, persona,
   * school name and the emotion's colour scheme.
   */
  lemma BatchSuccessShape(input: BatchInput, services: Services, userId: int)
    requires BatchSpec(input, services, userId).Ok?
    ensures var res := BatchSpec(input, services, userId).value;
      1 <= res.count == |res.items| <= |BatchTitles(input, services)|
    ensures var res := BatchSpec(input, services, userId).value;
      forall k :: 0 <= k < |res.items| ==> Shaped(input, BatchTitles(input, services), res.items[k])
  {
    BatchSpecOk(input, services, userId);
    var titles := BatchTitles(input, services);
    RawResultsShaped(input, titles, services, userId);
    SurvivorsSatisfy(RawResults(input, titles, services, userId), (item: BatchItem) => Shaped(input, titles, item));
  }

  /** A post with one of `titles`, the request's fields and the emotion's colour scheme. */
  predicate Shaped(input: BatchInput, titles: seq<string>, item: BatchItem)
  {
    && item.title in titles
    && item.scenario == input.scenario && item.emotion == input.emotion
    && item.personaType == input.personaType && item.schoolName == input.schoolName
    && item.cover.colorScheme == EmotionColorScheme(input.emotion)
  }

  /** Every post the worker produces over `titles` is shaped by the request. */
  lemma RawResultsShaped(input: BatchInput, titles: seq<string>, services: Services, userId: int)
    ensures var raw := RawResults(input, titles, services, userId);
      forall j :: 0 <= j < |raw| && raw[j].Some? ==> Shaped(input, titles, raw[j].value)
  {
    var raw := RawResults(input, titles, services, userId);
    forall j | 0 <= j < |raw| && raw[j].Some? ensures Shaped(input, titles, raw[j].value) {
      ItemShape(input, titles[j], services, userId, raw[j].value);
    }
  }

  /** What holds of every non-null result holds of every survivor. */
  lemma SurvivorsSatisfy<X>(raw: seq<Option<X>>, p: X -> bool)
    requires forall j :: 0 <= j < |raw| && raw[j].Some? ==> p(raw[j].value)
    ensures forall k :: 0 <= k < |Survivors(raw)| ==> p(Survivors(raw)[k])
  {
    var r := Survivors(raw);
    forall k | 0 <= k < |r| ensures p(r[k]) {
      var j :| 0 <= j < |raw| && raw[j] == Some(r[k]);
    }
  }

  /** A successful batch holds the non-null worker results over the batch's titles. */
  lemma BatchSpecOk(input: BatchInput, services: Services, userId: int)
    requires BatchSpec(input, services, userId).Ok?
    ensures var res := BatchSpec(input, services, userId).value;
      && res.items == Survivors(RawResults(input, BatchTitles(input, services), services, userId))
      && res.count == |res.items| && res.items != []
  {
  }

  /** A post the worker produced carries its title, the request fields and the emotion's colours. */
  lemma ItemShape(input: BatchInput, title: string, services: Services, userId: int, item: BatchItem)
    requires ItemOrNull(input, title, services, userId) == Some(item)
    ensures item.title == title
    ensures item.scenario == input.scenario && item.emotion == input.emotion
    ensures item.personaType == input.personaType && item.schoolName == input.schoolName
    ensures item.cover.colorScheme == EmotionColorScheme(input.emotion)
  {
  }

  /** When every worker succeeds, the batch holds one post per title, in title order. */
  lemma BatchAllSucceed(input: BatchInput, services: Services, userId: int)
    requires BatchTitles(input, services) != [] && MinBatchCount <= input.count <= MaxBatchCount
    requires forall k :: 0 <= k < |BatchTitles(input, services)| ==>
      ItemOrNull(input, BatchTitles(input, services)[k], services, userId).Some?
    ensures BatchSpec(input, services, userId).Ok?
    ensures var items := BatchSpec(input, services, userId).value.items;
      |items| == |BatchTitles(input, services)| &&
      forall k :: 0 <= k < |items| ==> items[k].title == BatchTitles(input, services)[k]
  {
    var titles := BatchTitles(input, services);
    var raw := RawResults(input, titles, services, userId);
    BatchSpecOfTitles(input, services, userId);
    AllSomeSurvive(raw);
    RawResultsTitled(input, titles, services, userId);
  }

  /** Once titles were obtained, the batch is the survivors of the worker over them, if any. */
  lemma BatchSpecOfTitles(input: BatchInput, services: Services, userId: int)
    requires BatchTitles(input, services) != [] && MinBatchCount <= input.count <= MaxBatchCount
    ensures var results := Survivors(RawResults(input, BatchTitles(input, services), services, userId));
      BatchSpec(input, services, userId) == if results == [] then Err(AllFailed) else Ok(BatchResult(results, |results|))
  {
  }

  /** The worker's post for a title carries that title. */
  lemma RawResultsTitled(input: BatchInput, titles: seq<string>, services: Services, userId: int)
    ensures var raw := RawResults(input, titles, services, userId);
      forall k :: 0 <= k < |raw| && raw[k].Some? ==> raw[k].value.title == titles[k]
  {
    var raw := RawResults(input, titles, services, userId);
    forall k | 0 <= k < |raw| && raw[k].Some? ensures raw[k].value.title == titles[k] {
      ItemShape(input, titles[k], services, userId, raw[k].value);
    }
  }

  /** With no null among them, every result survives in place. */
  lemma {:induction false} AllSomeSurvive<X>(raw: seq<Option<X>>)
    requires forall k :: 0 <= k < |raw| ==> raw[k].Some?
    ensures |Survivors(raw)| == |raw|
    ensures forall k :: 0 <= k < |raw| ==> Survivors(raw)[k] == raw[k].value
  {
    if raw != [] {
      AllSomeSurvive(raw[1..]);
    }
  }

  // ---------------------------------------------------------------------------------------------
  // Hot posts

  /** Ordered by likes, most liked first. */
  predicate SortedByLikes(s: seq<HotContent>)
  {
    forall i, j :: 0 <= i < j < |s| ==> s[i].likes >= s[j].likes
  }

  /** Places `x` in a list ordered by likes, ahead of the entries it ties with. */
  function InsertByLikes(x: HotContent, s: seq<HotContent>): (r: seq<HotContent>)
    requires SortedByLikes(s)
    ensures SortedByLikes(r)
    ensures multiset(r) == multiset(s) + multiset{x}
  {
    if s == [] || s[0].likes <= x.likes then
      ConsSorted(x, s);
      [x] + s
    else
      var t := s[1..];
      TailSorted(s);
      var rest := InsertByLikes(x, t);
      HeadBoundsInsert(s, x, rest);
      ConsSorted(s[0], rest);
      assert s == [s[0]] + t;
      [s[0]] + rest
  }

  /** Dropping the head of a sorted list leaves it sorted. */
  lemma TailSorted(s: seq<HotContent>)
    requires s != [] && SortedByLikes(s)
    ensures SortedByLikes(s[1..])
  {
    var t := s[1..];
    forall i, j | 0 <= i < j < |t| ensures t[i].likes >= t[j].likes {
      assert t[i] == s[i + 1] && t[j] == s[j + 1];
    }
  }

  /** The head of a sorted list is at least as liked as the tail with a less liked entry added. */
  lemma HeadBoundsInsert(s: seq<HotContent>, x: HotContent, rest: seq<HotContent>)
    requires s != [] && SortedByLikes(s) && s[0].likes > x.likes
    requires multiset(rest) == multiset(s[1..]) + multiset{x}
    ensures forall k :: 0 <= k < |rest| ==> s[0].likes >= rest[k].likes
  {
    var t := s[1..];
    forall k | 0 <= k < |rest| ensures s[0].likes >= rest[k].likes {
      assert rest[k] in multiset(rest);
      if rest[k] != x {
        assert rest[k] in multiset(t);
        var j :| 0 <= j < |t| && t[j] == rest[k];
        assert t[j] == s[j + 1];
      }
    }
  }

  /** A head at least as liked as everything after it extends a sorted list. */
  lemma ConsSorted(h: HotContent, s: seq<HotContent>)
    requires SortedByLikes(s)
    requires forall k :: 0 <= k < |s| ==> h.likes >= s[k].likes
    ensures SortedByLikes([h] + s)
  {
    var r := [h] + s;
    forall i, j | 0 <= i < j < |r| ensures r[i].likes >= r[j].likes {
      assert r[j] == s[j - 1];
      if i > 0 {
        assert r[i] == s[i - 1];
      }
    }
  }

  /** `sort((a, b) => b.likes - a.likes)`: the same entries, most liked first. */
  function SortByLikes(s: seq<HotContent>): (r: seq<HotContent>)
    ensures SortedByLikes(r)
    ensures multiset(r) == multiset(s)
  {
    if s == [] then []
    else
      assert s == [s[0]] + s[1..];
      InsertByLikes(s[0], SortByLikes(s[1..]))
  }

  /** The entry matches the optional scenario and emotion filters. */
  predicate MatchesFilters(item: HotContent, scenario: Option<Scenario>, emotion: Option<Emotion>)
  {
    && (scenario.None? || item.scenario == ScenarioKey(scenario.value))
    && (emotion.None? || item.emotion == EmotionKey(emotion.value))
  }

  /** The filter-then-sort of `hotContent.list`, over a copy of the database `data`. */
  function FilterAndSort(data: seq<HotContent>, scenario: Option<Scenario>, emotion: Option<Emotion>): (r: seq<HotContent>)
    ensures SortedByLikes(r)
    ensures forall x :: x in r <==> x in data && MatchesFilters(x, scenario, emotion)
    ensures forall x :: multiset(r)[x] == if MatchesFilters(x, scenario, emotion) then multiset(data)[x] else 0
    ensures scenario.None? && emotion.None? ==> multiset(r) == multiset(data)
  {
    var byScenario := if scenario.Some? then Filter(data, (item: HotContent) => item.scenario == ScenarioKey(scenario.value)) else data;
    var byEmotion := if emotion.Some? then Filter(byScenario, (item: HotContent) => item.emotion == EmotionKey(emotion.value)) else byScenario;
    var sorted := SortByLikes(byEmotion);
    forall x
      ensures x in sorted <==> x in data && MatchesFilters(x, scenario, emotion)
    {
      assert x in sorted <==> x in multiset(byEmotion);
      if scenario.Some? {
        FilterMember(data, (item: HotContent) => item.scenario == ScenarioKey(scenario.value), x);
      }
      if emotion.Some? {
        FilterMember(byScenario, (item: HotContent) => item.emotion == EmotionKey(emotion.value), x);
      }
    }
    forall x
      ensures multiset(sorted)[x] == if MatchesFilters(x, scenario, emotion) then multiset(data)[x] else 0
    {
      if scenario.Some? {
        FilterCount(data, (item: HotContent) => item.scenario == ScenarioKey(scenario.value), x);
      }
      if emotion.Some? {
        FilterCount(byScenario, (item: HotContent) => item.emotion == EmotionKey(emotion.value), x);
      }
    }
    sorted
  }

  /** `hotContent.list`: the hot posts of the scenario, then of the emotion, most liked first. */
  function HotContentList(scenario: Option<Scenario>, emotion: Option<Emotion>): (r: seq<HotContent>)
    ensures SortedByLikes(r)
    ensures forall x :: x in r <==> x in HotContentDatabase && MatchesFilters(x, scenario, emotion)
    ensures forall x :: multiset(r)[x] == if MatchesFilters(x, scenario, emotion) then multiset(HotContentDatabase)[x] else 0
  {
    FilterAndSort(HotContentDatabase, scenario, emotion)
  }

  /** Without filters, filter-then-sort keeps every entry, as often as it occurs. */
  lemma Unfiltered(data: seq<HotContent>)
    ensures multiset(FilterAndSort(data, None, None)) == multiset(data)
    ensures |FilterAndSort(data, None, None)| == |data|
  {
    var r := FilterAndSort(data, None, None);
    assert |multiset(r)| == |r|;
    assert |multiset(data)| == |data|;
  }
}
