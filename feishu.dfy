/**
 * Export of generated posts to a Feishu (Lark) multi-dimensional table ("bitable").
 *
 * The HTTP endpoints are parameters (`FeishuApi`): each request gives a reply carrying Feishu's
 * `code`, `msg` and data, or fails outright (a network error or a body that is not JSON). The
 * methods report, as ghost outputs, how many requests they made and which batches they sent.
 */
module Feishu {
  import opened Common
  import opened Strings

  // ---------------------------------------------------------------------------------------------
  // Data

  datatype FeishuConfig = FeishuConfig(appId: string, appSecret: string, appToken: Option<string>, tableId: Option<string>)

  datatype ExportContent = ExportContent(
    title: string,
    note: string,
    hashtags: seq<string>,
    coverText: string,
    coverSubText: Option<string>,
    scenario: string,
    emotion: string,
    personaType: string,
    schoolName: Option<string>,
    createdAt: Option<string>)

  /** A cell of a table record: text (also used for single-select cells) or a millisecond timestamp. */
  datatype FieldValue = Text(text: string) | Timestamp(millis: int)

  /** A table record: cell values by field name. */
  type TableRecord = map<string, FieldValue>

  /** A field the export needs, with its bitable type code. */
  datatype FieldSpec = FieldSpec(name: string, fieldType: int)

  /** A field already present in the table. */
  datatype BitableField = BitableField(fieldId: string, fieldName: string, fieldType: int)

  /** The reply of one Feishu request. */
  datatype ApiReply<T> = RequestFailed(message: string) | Reply(code: int, msg: string, data: T)

  /**
   * The Feishu endpoints: the tenant token for an app id and secret; the fields of a table (the
   * reply's `items`, which may be absent); creating a field, whose reply is ignored; and adding a
   * batch of records, which replies with their ids.
   */
  datatype FeishuApi = FeishuApi(
    tenantAccessToken: (string, string) -> ApiReply<string>,
    listFields: (string, string, string) -> ApiReply<Option<seq<BitableField>>>,
    createField: (string, string, string, FieldSpec) -> Outcome,
    addRecords: (string, string, string, seq<TableRecord>) -> ApiReply<seq<string>>)

  const TextField: int := 1
  const SingleSelectField: int := 3
  const DateTimeField: int := 5

  const TitleName: string := "标题"
  const NoteName: string := "正文"
  const HashtagsName: string := "话题标签"
  const CoverTextName: string := "封面主文案"
  const CoverSubTextName: string := "封面副文案"
  const ScenarioName: string := "业务场景"
  const EmotionName: string := "目标情绪"
  const PersonaName: string := "人设类型"
  const SchoolName: string := "学校"
  const CreatedAtName: string := "创建时间"

  /** The fields every export table needs, in the order they are created. */
  const RequiredFields: seq<FieldSpec> := [
    FieldSpec(TitleName, TextField),
    FieldSpec(NoteName, TextField),
    FieldSpec(HashtagsName, TextField),
    FieldSpec(CoverTextName, TextField),
    FieldSpec(CoverSubTextName, TextField),
    FieldSpec(ScenarioName, SingleSelectField),
    FieldSpec(EmotionName, SingleSelectField),
    FieldSpec(PersonaName, SingleSelectField),
    FieldSpec(SchoolName, TextField),
    FieldSpec(CreatedAtName, DateTimeField)
  ]

  /** The names of the required fields. */
  const RequiredFieldNames: set<string> :=
    {TitleName, NoteName, HashtagsName, CoverTextName, CoverSubTextName, ScenarioName, EmotionName,
     PersonaName, SchoolName, CreatedAtName}

  const MissingTableMessage: string := "请先配置多维表格的 App Token 和 Table ID"
  const NothingToExportMessage: string := "没有要导出的内容"

  /** The records of a batch request, at most this many per request. */
  const BatchSize: nat := 500

  /** A string setting is truthy: present and not empty. */
  predicate IsSet(v: Option<string>)
  {
    v.Some? && v.value != ""
  }

  /** `value || ""`. */
  function OrEmpty(v: Option<string>): (r: string)
    ensures IsSet(v) ==> r == v.value
    ensures !IsSet(v) ==> r == ""
  {
    if v.Some? then v.value else ""
  }

  // ---------------------------------------------------------------------------------------------
  // Records

  /**
   * `contentToRecord`: the ten cells of a post. Hashtags are joined with single spaces, a missing
   * cover subtitle or school becomes the empty text, and the creation time is the parsed
   * `createdAt` when it is set, the current time `now` otherwise.
   */
  function ContentToRecord(content: ExportContent, now: int, dateToMillis: string -> int): (r: TableRecord)
    ensures r.Keys == RequiredFieldNames
    ensures r[TitleName] == Text(content.title) && r[NoteName] == Text(content.note)
    ensures r[CoverTextName] == Text(content.coverText)
    ensures r[ScenarioName] == Text(content.scenario) && r[EmotionName] == Text(content.emotion)
    ensures r[PersonaName] == Text(content.personaType)
    ensures r[HashtagsName] == Text(Join(content.hashtags, " "))
    ensures r[CoverSubTextName] == Text(OrEmpty(content.coverSubText))
    ensures r[SchoolName] == Text(OrEmpty(content.schoolName))
    ensures r[CreatedAtName] == Timestamp(if IsSet(content.createdAt) then dateToMillis(content.createdAt.value) else now)
  {
    var r := map[
      TitleName := Text(content.title),
      NoteName := Text(content.note),
      HashtagsName := Text(Join(content.hashtags, " ")),
      CoverTextName := Text(content.coverText),
      CoverSubTextName := Text(OrEmpty(content.coverSubText)),
      ScenarioName := Text(content.scenario),
      EmotionName := Text(content.emotion),
      PersonaName := Text(content.personaType),
      SchoolName := Text(OrEmpty(content.schoolName)),
      CreatedAtName := Timestamp(if IsSet(content.createdAt) then dateToMillis(content.createdAt.value) else now)
    ];
    r
  }

  /** The required fields are named by exactly the names of that set, each once. */
  lemma RequiredNames()
    ensures (set k | 0 <= k < |RequiredFields| :: RequiredFields[k].name) == RequiredFieldNames
  {
    var names := set k | 0 <= k < |RequiredFields| :: RequiredFields[k].name;
    assert RequiredFields[0].name in names && RequiredFields[1].name in names && RequiredFields[2].name in names;
    assert RequiredFields[3].name in names && RequiredFields[4].name in names && RequiredFields[5].name in names;
    assert RequiredFields[6].name in names && RequiredFields[7].name in names && RequiredFields[8].name in names;
    assert RequiredFields[9].name in names;
  }

  /** The cell kind a bitable type code takes: a timestamp for date fields, text otherwise. */
  predicate FitsType(v: FieldValue, fieldType: int)
  {
    if fieldType == DateTimeField then v.Timestamp? else v.Text?
  }

  /** Every record fills every required field with a cell of that field's type. */
  lemma RecordFitsRequiredFields(content: ExportContent, now: int, dateToMillis: string -> int)
    ensures forall k :: 0 <= k < |RequiredFields| ==>
      RequiredFields[k].name in ContentToRecord(content, now, dateToMillis) &&
      FitsType(ContentToRecord(content, now, dateToMillis)[RequiredFields[k].name], RequiredFields[k].fieldType)
  {
    var r := ContentToRecord(content, now, dateToMillis);
    forall k | 0 <= k < |RequiredFields|
      ensures RequiredFields[k].name in r && FitsType(r[RequiredFields[k].name], RequiredFields[k].fieldType)
    {
      RequiredNames();
      assert RequiredFields[k].name in set j | 0 <= j < |RequiredFields| :: RequiredFields[j].name;
    }
  }

  /** The hashtag cell gives the tags back when they contain no space. */
  lemma HashtagCellRoundTrip(content: ExportContent, now: int, dateToMillis: string -> int)
    requires content.hashtags != []
    requires forall k :: 0 <= k < |content.hashtags| ==> ' ' !in content.hashtags[k]
    ensures Split(ContentToRecord(content, now, dateToMillis)[HashtagsName].text, ' ') == content.hashtags
  {
    SplitJoin(content.hashtags, ' ');
  }

  function Records(contents: seq<ExportContent>, now: int, dateToMillis: string -> int): (r: seq<TableRecord>)
    ensures |r| == |contents|
    ensures forall k :: 0 <= k < |contents| ==> r[k] == ContentToRecord(contents[k], now, dateToMillis)
  {
    seq(|contents|, k requires 0 <= k < |contents| => ContentToRecord(contents[k], now, dateToMillis))
  }

  // ---------------------------------------------------------------------------------------------
  // Replies

  /** A reply with code 0 gives its data; any other code throws `prefix` followed by the reply's message. */
  function CheckReply<T>(reply: ApiReply<T>, prefix: string): (r: Result<T, string>)
    ensures r.Ok? <==> reply.Reply? && reply.code == 0
    ensures r.Ok? ==> r.value == reply.data
    ensures reply.RequestFailed? ==> r == Err(reply.message)
    ensures reply.Reply? && reply.code != 0 ==> r == Err(prefix + reply.msg)
  {
    match reply
    case RequestFailed(message) => Err(message)
    case Reply(code, msg, data) => if code != 0 then Err(prefix + msg) else Ok(data)
  }

  /** `getTenantAccessToken`. */
  function GetTenantAccessToken(config: FeishuConfig, api: FeishuApi): (r: Result<string, string>)
    ensures var reply := api.tenantAccessToken(config.appId, config.appSecret);
      && (r.Ok? <==> reply.Reply? && reply.code == 0)
      && (r.Ok? ==> r.value == reply.data)
      && (reply.RequestFailed? ==> r == Err(reply.message))
      && (reply.Reply? && reply.code != 0 ==> r == Err("获取飞书 token 失败: " + reply.msg))
  {
    CheckReply(api.tenantAccessToken(config.appId, config.appSecret), "获取飞书 token 失败: ")
  }

  /** `getBitableFields`: the table's fields, none when the reply has no `items`. */
  function GetBitableFields(api: FeishuApi, token: string, appToken: string, tableId: string): (r: Result<seq<BitableField>, string>)
    ensures var reply := api.listFields(token, appToken, tableId);
      && (r.Ok? <==> reply.Reply? && reply.code == 0)
      && (r.Ok? ==> r.value == if reply.data.Some? then reply.data.value else [])
      && (reply.RequestFailed? ==> r == Err(reply.message))
      && (reply.Reply? && reply.code != 0 ==> r == Err("获取多维表格字段失败: " + reply.msg))
  {
    match CheckReply(api.listFields(token, appToken, tableId), "获取多维表格字段失败: ")
    case Err(e) => Err(e)
    case Ok(items) => Ok(if items.Some? then items.value else [])
  }

  /** `addBitableRecords`: the ids of the added records. */
  function AddBitableRecords(api: FeishuApi, token: string, appToken: string, tableId: string, records: seq<TableRecord>): (r: Result<seq<string>, string>)
    ensures var reply := api.addRecords(token, appToken, tableId, records);
      && (r.Ok? <==> reply.Reply? && reply.code == 0)
      && (r.Ok? ==> r.value == reply.data)
      && (reply.RequestFailed? ==> r == Err(reply.message))
      && (reply.Reply? && reply.code != 0 ==> r == Err("添加多维表格记录失败: " + reply.msg))
  {
    CheckReply(api.addRecords(token, appToken, tableId, records), "添加多维表格记录失败: ")
  }

  // ---------------------------------------------------------------------------------------------
  // Fields

  function FieldNames(fields: seq<BitableField>): (names: set<string>)
    ensures forall k :: 0 <= k < |fields| ==> fields[k].fieldName in names
    ensures forall n :: n in names ==> exists k :: 0 <= k < |fields| && fields[k].fieldName == n
  {
    set k | 0 <= k < |fields| :: fields[k].fieldName
  }

  /** The fields of `required` whose names are not among `existing`, in order. */
  function MissingFrom(required: seq<FieldSpec>, existing: set<string>): seq<FieldSpec>
  {
    if required == [] then []
    else (if required[0].name !in existing then [required[0]] else []) + MissingFrom(required[1..], existing)
  }

  lemma {:induction false} MissingFromAppend(a: seq<FieldSpec>, b: seq<FieldSpec>, existing: set<string>)
    ensures MissingFrom(a + b, existing) == MissingFrom(a, existing) + MissingFrom(b, existing)
  {
    if a == [] {
      assert a + b == b;
    } else {
      assert (a + b)[1..] == a[1..] + b;
      MissingFromAppend(a[1..], b, existing);
    }
  }

  lemma {:induction false} MissingFromMember(required: seq<FieldSpec>, existing: set<string>, f: FieldSpec)
    ensures f in MissingFrom(required, existing) <==> f in required && f.name !in existing
  {
    if required != [] {
      MissingFromMember(required[1..], existing, f);
      assert required == [required[0]] + required[1..];
    }
  }

  /** The required fields whose names are not among `existing`, in declaration order. */
  function MissingFields(existing: set<string>): seq<FieldSpec>
  {
    MissingFrom(RequiredFields, existing)
  }

  /** A field is created exactly when it is required and its name is absent. */
  lemma MissingFieldsCharacterization(existing: set<string>, f: FieldSpec)
    ensures f in MissingFields(existing) <==> f in RequiredFields && f.name !in existing
  {
    MissingFromMember(RequiredFields, existing, f);
  }

  /** The names created are the required names less the existing ones. */
  lemma MissingNamesAreSetDifference(existing: set<string>)
    ensures (set k | 0 <= k < |MissingFields(existing)| :: MissingFields(existing)[k].name) ==
      (set k | 0 <= k < |RequiredFields| :: RequiredFields[k].name) - existing
  {
    var missing := MissingFields(existing);
    var left := set k | 0 <= k < |missing| :: missing[k].name;
    var right := (set k | 0 <= k < |RequiredFields| :: RequiredFields[k].name) - existing;
    forall n | n in left ensures n in right {
      var k :| 0 <= k < |missing| && missing[k].name == n;
      MissingFieldsCharacterization(existing, missing[k]);
      var j :| 0 <= j < |RequiredFields| && RequiredFields[j] == missing[k];
    }
    forall n | n in right ensures n in left {
      var j :| 0 <= j < |RequiredFields| && RequiredFields[j].name == n;
      MissingFieldsCharacterization(existing, RequiredFields[j]);
      var k :| 0 <= k < |missing| && missing[k] == RequiredFields[j];
    }
  }

  /** A table that already has every field gets no create request. */
  lemma NothingMissingWhenAllPresent(existing: set<string>)
    requires forall k :: 0 <= k < |RequiredFields| ==> RequiredFields[k].name in existing
    ensures MissingFields(existing) == []
  {
    var missing := MissingFields(existing);
    if missing != [] {
      MissingFieldsCharacterization(existing, missing[0]);
    }
  }

  /** The missing fields of a prefix are a prefix of the missing fields. */
  lemma MissingPrefix(required: seq<FieldSpec>, i: nat, existing: set<string>)
    requires i <= |required|
    ensures |MissingFrom(required[..i], existing)| <= |MissingFrom(required, existing)|
    ensures MissingFrom(required[..i], existing) == MissingFrom(required, existing)[..|MissingFrom(required[..i], existing)|]
  {
    assert required == required[..i] + required[i..];
    MissingFromAppend(required[..i], required[i..], existing);
  }

  /**
   * The loop of `ensureBitableFields`: a create request for each field of `required` whose name
   * is not in `existing`, in order. `created` lists the fields whose create request was sent. Only
   * a request that fails outright stops the loop; the replies' codes are not inspected.
   */
  method CreateMissingFields(api: FeishuApi, token: string, appToken: string, tableId: string,
                             required: seq<FieldSpec>, existing: set<string>)
    returns (r: Outcome, created: seq<FieldSpec>)
    ensures |created| <= |MissingFrom(required, existing)|
    ensures created == MissingFrom(required, existing)[..|created|]
    ensures r.Done? ==> created == MissingFrom(required, existing)
    ensures forall k :: 0 <= k < |created| - 1 ==> api.createField(token, appToken, tableId, created[k]).Done?
    ensures r.Done? <==> forall k :: 0 <= k < |created| ==> api.createField(token, appToken, tableId, created[k]).Done?
    ensures r.Failed? ==> created != [] && r == api.createField(token, appToken, tableId, created[|created| - 1])
  {
    created := [];
    var i := 0;
    while i < |required|
      invariant 0 <= i <= |required|
      invariant created == MissingFrom(required[..i], existing)
      invariant forall k :: 0 <= k < |created| ==> api.createField(token, appToken, tableId, created[k]).Done?
    {
      var field := required[i];
      assert required[..i + 1] == required[..i] + [field];
      MissingFromAppend(required[..i], [field], existing);
      if field.name !in existing {
        var outcome := api.createField(token, appToken, tableId, field);
        var before := created;
        created := created + [field];
        if outcome.Failed? {
          assert created == MissingFrom(required[..i + 1], existing);
          MissingPrefix(required, i + 1, existing);
          assert created[|created| - 1] == field;
          assert forall k :: 0 <= k < |created| - 1 ==> created[k] == before[k];
          return outcome, created;
        }
      }
      i := i + 1;
    }
    assert required[..i] == required;
    return Done, created;
  }

  /**
   * `ensureBitableFields`: lists the table's fields, then sends a create request for each missing
   * required field in declaration order, stopping at the first request that fails outright.
   */
  method EnsureBitableFields(api: FeishuApi, token: string, appToken: string, tableId: string)
    returns (r: Outcome, created: seq<FieldSpec>)
    ensures GetBitableFields(api, token, appToken, tableId).Err? ==>
      r == Failed(GetBitableFields(api, token, appToken, tableId).error) && created == []
    ensures GetBitableFields(api, token, appToken, tableId).Ok? ==>
      var missing := MissingFields(FieldNames(GetBitableFields(api, token, appToken, tableId).value));
      && |created| <= |missing| && created == missing[..|created|]
      && (r.Done? ==> created == missing)
      && (r.Done? <==> forall k :: 0 <= k < |created| ==> api.createField(token, appToken, tableId, created[k]).Done?)
      && (r.Failed? ==> created != [] && r == api.createField(token, appToken, tableId, created[|created| - 1]))
    ensures r.Done? <==> FieldsStepSucceeds(api, token, appToken, tableId)
    ensures r.Failed? && GetBitableFields(api, token, appToken, tableId).Ok? ==>
      exists f :: f in MissingFields(FieldNames(GetBitableFields(api, token, appToken, tableId).value)) &&
        api.createField(token, appToken, tableId, f) == r
  {
    var existingFields := GetBitableFields(api, token, appToken, tableId);
    if existingFields.Err? {
      return Failed(existingFields.error), [];
    }
    r, created := CreateMissingFields(api, token, appToken, tableId, RequiredFields, FieldNames(existingFields.value));
    if r.Failed? {
      var missing := MissingFields(FieldNames(existingFields.value));
      assert created[|created| - 1] == missing[|created| - 1];
    }
  }

  /**
   * Every request of the fields step succeeds: the field list is obtained and each missing
   * field's creation request goes through.
   */
  predicate FieldsStepSucceeds(api: FeishuApi, token: string, appToken: string, tableId: string)
  {
    && GetBitableFields(api, token, appToken, tableId).Ok?
    && var missing := MissingFields(FieldNames(GetBitableFields(api, token, appToken, tableId).value));
       forall k :: 0 <= k < |missing| ==> api.createField(token, appToken, tableId, missing[k]).Done?
  }

  // ---------------------------------------------------------------------------------------------
  // Chunks

  /** `s` cut into consecutive pieces of `size` elements, the last one possibly shorter. */
  function Chunks<T>(s: seq<T>, size: nat): seq<seq<T>>
    requires size > 0
    decreases |s|
  {
    if s == [] then [] else if |s| <= size then [s] else [s[..size]] + Chunks(s[size..], size)
  }

  /** The pieces, put back together, are the sequence: every element is sent once, in order. */
  lemma {:induction false} FlattenChunks<T>(s: seq<T>, size: nat)
    requires size > 0
    ensures Flatten(Chunks(s, size)) == s
    decreases |s|
  {
    if s != [] && |s| > size {
      FlattenChunks(s[size..], size);
      assert [s[..size]] + Chunks(s[size..], size) == Chunks(s, size);
      assert s == s[..size] + s[size..];
    } else if s != [] {
      assert Flatten([s]) == s + Flatten([]);
    }
  }

  /** Every piece holds between one and `size` elements. */
  lemma {:induction false} ChunkSizes<T>(s: seq<T>, size: nat)
    requires size > 0
    ensures forall k :: 0 <= k < |Chunks(s, size)| ==> 1 <= |Chunks(s, size)[k]| <= size
    decreases |s|
  {
    if s != [] && |s| > size {
      ChunkSizes(s[size..], size);
      var c := Chunks(s, size);
      assert c == [s[..size]] + Chunks(s[size..], size);
      forall k | 1 <= k < |c| ensures 1 <= |c[k]| <= size {
        assert c[k] == Chunks(s[size..], size)[k - 1];
      }
    }
  }

  /** Every piece but the last is full. */
  lemma {:induction false} ChunksAreFull<T>(s: seq<T>, size: nat)
    requires size > 0
    ensures forall k :: 0 <= k < |Chunks(s, size)| - 1 ==> |Chunks(s, size)[k]| == size
    decreases |s|
  {
    if s != [] && |s| > size {
      ChunksAreFull(s[size..], size);
      var c := Chunks(s, size);
      assert c == [s[..size]] + Chunks(s[size..], size);
      forall k | 1 <= k < |c| - 1 ensures |c[k]| == size {
        assert c[k] == Chunks(s[size..], size)[k - 1];
      }
    }
  }

  /** Cutting from position `i` on: the slice of at most `size` elements at `i`, then the rest. */
  lemma ChunksFrom<T>(s: seq<T>, i: nat, size: nat)
    requires size > 0 && i < |s|
    ensures Chunks(s[i..], size) == [s[i..Min(i + size, |s|)]] + Chunks(s[Min(i + size, |s|)..], size)
  {
    var t := s[i..];
    if |t| <= size {
      assert t == s[i..|s|];
      assert s[|s|..] == [];
    } else {
      assert t[..size] == s[i..i + size];
      assert t[size..] == s[i + size..];
    }
  }

  // ---------------------------------------------------------------------------------------------
  // Export

  datatype BatchExport = BatchExport(recordIds: seq<string>, url: string, count: int)
  datatype SingleExport = SingleExport(recordId: Option<string>, url: string)

  function TableUrl(appToken: string, tableId: string): string
  {
    "https://www.feishu.cn/base/" + appToken + "?table=" + tableId
  }

  /** Both table settings are present and the token is obtained. */
  predicate TableReady(config: FeishuConfig, api: FeishuApi)
  {
    IsSet(config.appToken) && IsSet(config.tableId) && Token(config, api).Ok?
  }

  /** The token the exports use when both table settings are present. */
  function Token(config: FeishuConfig, api: FeishuApi): Result<string, string>
  {
    GetTenantAccessToken(config, api)
  }

  /**
   * The chunk loop of `batchExportToFeishu`: `records` sent in consecutive slices of at most 500,
   * stopping at the first request that fails. `batches` are the slices sent successfully and
   * `batchIds` the ids each reply gave.
   */
  method AddInBatches(api: FeishuApi, token: string, appToken: string, tableId: string, records: seq<TableRecord>)
    returns (r: Result<seq<string>, string>, ghost requests: nat, ghost batches: seq<seq<TableRecord>>, ghost batchIds: seq<seq<string>>)
    ensures r.Ok? ==> batches == Chunks(records, BatchSize)
    ensures |batchIds| == |batches|
    ensures forall k :: 0 <= k < |batches| ==> AddBitableRecords(api, token, appToken, tableId, batches[k]) == Ok(batchIds[k])
    ensures r.Ok? ==> r.value == Flatten(batchIds)
    ensures r.Ok? ==> requests == |batches|
    ensures r.Err? ==> requests == |batches| + 1
    ensures |batches| <= |Chunks(records, BatchSize)| && batches == Chunks(records, BatchSize)[..|batches|]
    ensures r.Err? ==>
      && |batches| < |Chunks(records, BatchSize)|
      && AddBitableRecords(api, token, appToken, tableId, Chunks(records, BatchSize)[|batches|]) == Err(r.error)
    ensures AllBatchesAdd(api, token, appToken, tableId, records) ==> r.Ok?
  {
    requests := 0;
    batches := [];
    batchIds := [];
    var allRecordIds: seq<string> := [];
    var i := 0;
    while i < |records|
      invariant 0 <= i
      invariant batches + Chunks(records[Min(i, |records|)..], BatchSize) == Chunks(records, BatchSize)
      invariant |batchIds| == |batches| && requests == |batches|
      invariant forall k :: 0 <= k < |batches| ==> AddBitableRecords(api, token, appToken, tableId, batches[k]) == Ok(batchIds[k])
      invariant allRecordIds == Flatten(batchIds)
      decreases |records| - i
    {
      var batch := records[i..Min(i + BatchSize, |records|)];
      ChunksFrom(records, i, BatchSize);
      var result := AddBitableRecords(api, token, appToken, tableId, batch);
      requests := requests + 1;
      if result.Err? {
        NextChunk(records, batches, i);
        PrefixOfConcat(batches, Chunks(records[i..], BatchSize), Chunks(records, BatchSize));
        assert !AllBatchesAdd(api, token, appToken, tableId, records);
        return Err(result.error), requests, batches, batchIds;
      }
      FlattenAppend(batchIds, [result.value]);
      assert Flatten([result.value]) == result.value + Flatten([]);
      allRecordIds := allRecordIds + result.value;
      batches := batches + [batch];
      batchIds := batchIds + [result.value];
      i := i + BatchSize;
    }
    assert records[|records|..] == [];
    return Ok(allRecordIds), requests, batches, batchIds;
  }

  /** Once the chunks before position `i` are sent, the next chunk is the slice at `i`. */
  lemma NextChunk(records: seq<TableRecord>, sent: seq<seq<TableRecord>>, i: nat)
    requires i < |records|
    requires sent + Chunks(records[i..], BatchSize) == Chunks(records, BatchSize)
    ensures |sent| < |Chunks(records, BatchSize)|
    ensures Chunks(records, BatchSize)[|sent|] == records[i..Min(i + BatchSize, |records|)]
  {
    ChunksFrom(records, i, BatchSize);
    var rest := Chunks(records[Min(i + BatchSize, |records|)..], BatchSize);
    assert Chunks(records, BatchSize) == sent + [records[i..Min(i + BatchSize, |records|)]] + rest;
  }

  /** A prefix of a concatenation is its first part. */
  lemma PrefixOfConcat<T>(a: seq<T>, b: seq<T>, c: seq<T>)
    requires a + b == c
    ensures |a| <= |c| && a == c[..|a|]
  {
    assert c[..|a|] == (a + b)[..|a|];
  }

  /** Every chunk of `records` is added successfully. */
  predicate AllBatchesAdd(api: FeishuApi, token: string, appToken: string, tableId: string, records: seq<TableRecord>)
  {
    forall k :: 0 <= k < |Chunks(records, BatchSize)| ==>
      AddBitableRecords(api, token, appToken, tableId, Chunks(records, BatchSize)[k]).Ok?
  }

  /**
   * `batchExportToFeishu`. The table settings and a non-empty list are checked before any request;
   * then the token is fetched, the fields ensured, and the records sent in `batches`, with the ids
   * of each batch in `batchIds`. `requests` counts the requests made.
   */
  method BatchExportToFeishu(config: FeishuConfig, contents: seq<ExportContent>, api: FeishuApi, now: int, dateToMillis: string -> int)
    returns (r: Result<BatchExport, string>, ghost requests: nat, ghost batches: seq<seq<TableRecord>>, ghost batchIds: seq<seq<string>>,
             ghost fieldsOutcome: Outcome)
    ensures !IsSet(config.appToken) || !IsSet(config.tableId) ==> r == Err(MissingTableMessage) && requests == 0
    ensures IsSet(config.appToken) && IsSet(config.tableId) && contents == [] ==>
      r == Err(NothingToExportMessage) && requests == 0
    ensures IsSet(config.appToken) && IsSet(config.tableId) && contents != [] && Token(config, api).Err? ==>
      r == Err(Token(config, api).error) && requests == 1
    ensures r.Ok? ==> IsSet(config.appToken) && IsSet(config.tableId) && Token(config, api).Ok?
    ensures r.Ok? ==> batches == Chunks(Records(contents, now, dateToMillis), BatchSize)
    ensures r.Ok? ==> |batchIds| == |batches| && forall k :: 0 <= k < |batches| ==>
      AddBitableRecords(api, Token(config, api).value, config.appToken.value, config.tableId.value, batches[k]) == Ok(batchIds[k])
    ensures r.Ok? ==> r.value.recordIds == Flatten(batchIds) && r.value.count == |r.value.recordIds|
    ensures r.Ok? ==> r.value.url == TableUrl(config.appToken.value, config.tableId.value)
    ensures r.Ok? ==> fieldsOutcome == Done
    ensures TableReady(config, api) && contents != [] ==>
      var token := Token(config, api).value;
      var appToken := config.appToken.value;
      var tableId := config.tableId.value;
      var fields := GetBitableFields(api, token, appToken, tableId);
      var records := Records(contents, now, dateToMillis);
      && (fields.Err? ==> r == Err(fields.error) && fieldsOutcome == Failed(fields.error))
      && (fieldsOutcome.Failed? ==> r == Err(fieldsOutcome.message))
      && (fieldsOutcome.Done? <==> FieldsStepSucceeds(api, token, appToken, tableId))
      && (r.Ok? ==> FieldsStepSucceeds(api, token, appToken, tableId))
      && (fieldsOutcome.Done? && r.Err? ==>
            && |batches| < |Chunks(records, BatchSize)| && batches == Chunks(records, BatchSize)[..|batches|]
            && AddBitableRecords(api, token, appToken, tableId, Chunks(records, BatchSize)[|batches|]) == Err(r.error))
      && (FieldsStepSucceeds(api, token, appToken, tableId) && AllBatchesAdd(api, token, appToken, tableId, records) ==> r.Ok?)
  {
    requests := 0;
    batches := [];
    batchIds := [];
    fieldsOutcome := Done;
    if !IsSet(config.appToken) || !IsSet(config.tableId) {
      return Err(MissingTableMessage), requests, batches, batchIds, fieldsOutcome;
    }
    if |contents| == 0 {
      return Err(NothingToExportMessage), requests, batches, batchIds, fieldsOutcome;
    }
    var appToken := config.appToken.value;
    var tableId := config.tableId.value;
    var token := GetTenantAccessToken(config, api);
    requests := requests + 1;
    if token.Err? {
      return Err(token.error), requests, batches, batchIds, fieldsOutcome;
    }
    var ensured, created := EnsureBitableFields(api, token.value, appToken, tableId);
    requests := requests + 1 + |created|;
    fieldsOutcome := ensured;
    if ensured.Failed? {
      return Err(ensured.message), requests, batches, batchIds, fieldsOutcome;
    }
    var records := Records(contents, now, dateToMillis);
    var added;
    ghost var sent;
    added, sent, batches, batchIds := AddInBatches(api, token.value, appToken, tableId, records);
    requests := requests + sent;
    if added.Err? {
      return Err(added.error), requests, batches, batchIds, fieldsOutcome;
    }
    return Ok(BatchExport(added.value, TableUrl(appToken, tableId), |added.value|)), requests, batches, batchIds, fieldsOutcome;
  }

  /** A successful batch export sent every record exactly once, in order, at most 500 per request. */
  lemma BatchesCoverRecords(contents: seq<ExportContent>, now: int, dateToMillis: string -> int, batches: seq<seq<TableRecord>>)
    requires batches == Chunks(Records(contents, now, dateToMillis), BatchSize)
    ensures Flatten(batches) == Records(contents, now, dateToMillis)
    ensures forall k :: 0 <= k < |batches| ==> 1 <= |batches[k]| <= BatchSize
    ensures forall k :: 0 <= k < |batches| - 1 ==> |batches[k]| == BatchSize
  {
    FlattenChunks(Records(contents, now, dateToMillis), BatchSize);
    ChunkSizes(Records(contents, now, dateToMillis), BatchSize);
    ChunksAreFull(Records(contents, now, dateToMillis), BatchSize);
  }

  /**
   * `exportToFeishu`: the single-record export. The table settings are checked before any request;
   * `recordId` is the first id of the reply, absent when the reply lists none.
   */
  method ExportToFeishu(config: FeishuConfig, content: ExportContent, api: FeishuApi, now: int, dateToMillis: string -> int)
    returns (r: Result<SingleExport, string>, ghost requests: nat, ghost fieldsOutcome: Outcome)
    ensures !IsSet(config.appToken) || !IsSet(config.tableId) ==> r == Err(MissingTableMessage) && requests == 0
    ensures IsSet(config.appToken) && IsSet(config.tableId) && Token(config, api).Err? ==>
      r == Err(Token(config, api).error) && requests == 1
    ensures r.Ok? ==> IsSet(config.appToken) && IsSet(config.tableId) && Token(config, api).Ok?
    ensures r.Ok? ==>
      var added := AddBitableRecords(api, Token(config, api).value, config.appToken.value, config.tableId.value,
                                     [ContentToRecord(content, now, dateToMillis)]);
      && added.Ok?
      && r.value.recordId == (if added.value == [] then None else Some(added.value[0]))
    ensures r.Ok? ==> r.value.url == TableUrl(config.appToken.value, config.tableId.value) + "&view=vewXXX"
    ensures r.Ok? ==> fieldsOutcome == Done
    ensures TableReady(config, api) ==>
      var token := Token(config, api).value;
      var appToken := config.appToken.value;
      var tableId := config.tableId.value;
      var fields := GetBitableFields(api, token, appToken, tableId);
      var added := AddBitableRecords(api, token, appToken, tableId, [ContentToRecord(content, now, dateToMillis)]);
      && (fields.Err? ==> r == Err(fields.error) && fieldsOutcome == Failed(fields.error))
      && (fieldsOutcome.Failed? ==> r == Err(fieldsOutcome.message))
      && (fieldsOutcome.Done? <==> FieldsStepSucceeds(api, token, appToken, tableId))
      && (r.Ok? ==> FieldsStepSucceeds(api, token, appToken, tableId))
      && (fieldsOutcome.Done? ==> (r.Ok? <==> added.Ok?) && (added.Err? ==> r == Err(added.error)))
  {
    requests := 0;
    fieldsOutcome := Done;
    if !IsSet(config.appToken) || !IsSet(config.tableId) {
      return Err(MissingTableMessage), requests, fieldsOutcome;
    }
    var appToken := config.appToken.value;
    var tableId := config.tableId.value;
    var token := GetTenantAccessToken(config, api);
    requests := requests + 1;
    if token.Err? {
      return Err(token.error), requests, fieldsOutcome;
    }
    var ensured, created := EnsureBitableFields(api, token.value, appToken, tableId);
    requests := requests + 1 + |created|;
    fieldsOutcome := ensured;
    if ensured.Failed? {
      return Err(ensured.message), requests, fieldsOutcome;
    }
    var record := ContentToRecord(content, now, dateToMillis);
    var result := AddBitableRecords(api, token.value, appToken, tableId, [record]);
    requests := requests + 1;
    if result.Err? {
      return Err(result.error), requests, fieldsOutcome;
    }
    var url := TableUrl(appToken, tableId) + "&view=vewXXX";
    var recordId := if |result.value| == 0 then None else Some(result.value[0]);
    return Ok(SingleExport(recordId, url)), requests, fieldsOutcome;
  }

  // ---------------------------------------------------------------------------------------------
  // Validation

  datatype Validation = Validation(valid: bool, message: string)

  const TableAccessibleMessage: string := "配置验证成功，多维表格可访问"
  const AppValidMessage: string := "飞书应用配置验证成功"

  /**
   * `validateFeishuConfig`, which never throws: the token must be obtainable, and when both table
   * settings are present the table's fields must be readable.
   */
  function ValidateFeishuConfig(config: FeishuConfig, api: FeishuApi): (v: Validation)
    ensures v.valid <==>
      && GetTenantAccessToken(config, api).Ok?
      && (IsSet(config.appToken) && IsSet(config.tableId) ==>
            GetBitableFields(api, GetTenantAccessToken(config, api).value, config.appToken.value, config.tableId.value).Ok?)
    ensures GetTenantAccessToken(config, api).Err? ==>
      v.message == "配置验证失败: " + GetTenantAccessToken(config, api).error
    ensures GetTenantAccessToken(config, api).Ok? && IsSet(config.appToken) && IsSet(config.tableId) ==>
      var fields := GetBitableFields(api, GetTenantAccessToken(config, api).value, config.appToken.value, config.tableId.value);
      v.message == if fields.Ok? then TableAccessibleMessage else "多维表格访问失败: " + fields.error
    ensures GetTenantAccessToken(config, api).Ok? && !(IsSet(config.appToken) && IsSet(config.tableId)) ==>
      v == Validation(true, AppValidMessage)
  {
    var token := GetTenantAccessToken(config, api);
    if token.Err? then Validation(false, "配置验证失败: " + token.error)
    else if IsSet(config.appToken) && IsSet(config.tableId) then
      var fields := GetBitableFields(api, token.value, config.appToken.value, config.tableId.value);
      if fields.Ok? then Validation(true, TableAccessibleMessage)
      else Validation(false, "多维表格访问失败: " + fields.error)
    else Validation(true, AppValidMessage)
  }

  /** Without table settings only the token is checked: the table endpoints are never consulted. */
  lemma ValidationIgnoresTableWithoutSettings(config: FeishuConfig, api: FeishuApi, other: FeishuApi)
    requires !IsSet(config.appToken) || !IsSet(config.tableId)
    requires other.tenantAccessToken == api.tenantAccessToken
    ensures ValidateFeishuConfig(config, other) == ValidateFeishuConfig(config, api)
  {
  }
}
