/**
 * The reference tables of the content generator: scenarios, emotions, built-in personas, the
 * hashtag library, the school database and the hot-post database, with the facts about them that
 * the hashtag and hot-content logic rely on.
 */
module Xhs {
  import opened Common

  /** The appeal situations a post can be about. */
  datatype Scenario = Delay | Dropout | Misconduct | Fail | Leave | Withdraw

  /** The emotional register a post aims for. */
  datatype Emotion = Empathy | Warning | Help | Success | Critic

  /** The built-in writer personas. */
  datatype PersonaType = SeniorSister | Professional | Anxious | Critic

  /** The study regions schools are grouped by. */
  datatype SchoolRegion = UK | AU | US | CA | HK | SG | EU

  /** The wire names of the enumerations, as the API and the tables spell them. */
  function ScenarioKey(s: Scenario): string
  {
    match s
    case Delay => "delay"
    case Dropout => "dropout"
    case Misconduct => "misconduct"
    case Fail => "fail"
    case Leave => "leave"
    case Withdraw => "withdraw"
  }

  function ParseScenario(t: string): (r: Option<Scenario>)
    ensures r.Some? ==> ScenarioKey(r.value) == t
  {
    if t == "delay" then Some(Delay)
    else if t == "dropout" then Some(Dropout)
    else if t == "misconduct" then Some(Misconduct)
    else if t == "fail" then Some(Fail)
    else if t == "leave" then Some(Leave)
    else if t == "withdraw" then Some(Withdraw)
    else None
  }

  function EmotionKey(e: Emotion): string
  {
    match e
    case Empathy => "empathy"
    case Warning => "warning"
    case Help => "help"
    case Success => "success"
    case Critic => "critic"
  }

  function ParseEmotion(t: string): (r: Option<Emotion>)
    ensures r.Some? ==> EmotionKey(r.value) == t
  {
    if t == "empathy" then Some(Empathy)
    else if t == "warning" then Some(Warning)
    else if t == "help" then Some(Help)
    else if t == "success" then Some(Success)
    else if t == "critic" then Some(Emotion.Critic)
    else None
  }

  function PersonaKey(p: PersonaType): string
  {
    match p
    case SeniorSister => "senior_sister"
    case Professional => "professional"
    case Anxious => "anxious"
    case Critic => "critic"
  }

  function RegionKey(r: SchoolRegion): string
  {
    match r
    case UK => "uk"
    case AU => "au"
    case US => "us"
    case CA => "ca"
    case HK => "hk"
    case SG => "sg"
    case EU => "eu"
  }

  /** Every wire name decodes back to the value it names. */
  lemma KeysRoundTrip(s: Scenario, e: Emotion)
    ensures ParseScenario(ScenarioKey(s)) == Some(s)
    ensures ParseEmotion(EmotionKey(e)) == Some(e)
  {
  }

  datatype ScenarioInfo = ScenarioInfo(labelText: string, keywords: seq<string>)
  datatype EmotionInfo = EmotionInfo(labelText: string, color: string, emoji: seq<string>)
  datatype Persona = Persona(
    name: string,
    description: string,
    greetings: seq<string>,
    toneWords: seq<string>,
    emojiStyle: seq<string>,
    samplePhrases: seq<string>)

  /** The hashtag library: general tags, tags per scenario, tags per region, appeal tags. */
  datatype TagLibrary = TagLibrary(
    general: seq<string>,
    scenario: map<Scenario, seq<string>>,
    school: map<SchoolRegion, seq<string>>,
    appeal: seq<string>)

  datatype School = School(name: string, abbr: string)
  datatype RegionSchools = RegionSchools(labelText: string, schools: seq<School>)

  /** One entry of the hot-post database; scenario and emotion are stored by their wire names. */
  datatype HotContent = HotContent(title: string, likes: int, scenario: string, pattern: string, emotion: string)

  const Scenarios: map<Scenario, ScenarioInfo> := map[
    Delay := ScenarioInfo("延期", ["延期入学", "考试延期", "deadline延期", "EC申请"]),
    Dropout := ScenarioInfo("退学", ["被退学", "劝退", "开除", "复学"]),
    Misconduct := ScenarioInfo("学术不端", ["抄袭", "AI检测", "cheating", "作弊", "Turnitin"]),
    Fail := ScenarioInfo("挂科", ["挂科", "补考", "成绩复议", "重修"]),
    Leave := ScenarioInfo("休学", ["休学", "gap year", "中断学业", "LOA"]),
    Withdraw := ScenarioInfo("撤课", ["撤课", "withdraw", "退课", "非常规撤课"])
  ]

  const Emotions: map<Emotion, EmotionInfo> := map[
    Empathy := EmotionInfo("共鸣型", "#FF6B9D", ["😭", "🥺", "💔", "😢"]),
    Warning := EmotionInfo("警示型", "#FF4D4F", ["⚠️", "❌", "🚫", "‼️"]),
    Help := EmotionInfo("求助型", "#1890FF", ["🙏", "🆘", "❓", "😰"]),
    Success := EmotionInfo("成功型", "#52C41A", ["✅", "🎉", "💪", "🔥"]),
    Emotion.Critic := EmotionInfo("吐槽型", "#722ED1", ["😅", "🤡", "💀", "🙄"])
  ]

  const DefaultPersonas: map<PersonaType, Persona> := map[
    SeniorSister := Persona(
      "过来人学姐",
      "亲历者视角，真实经验分享，亲切真诚略带自嘲",
      ["hi大家", "姐妹们", "宝子们", "集美们"],
      ["说实话", "有一说一", "真的", "其实", "哈哈"],
      ["😊", "🙈", "💪", "✨", "🥹"],
      ["说实话当时我也慌得一批", "这个坑我替你们踩过了", "有一说一，这个过程真的没那么难", "姐妹们我真的要哭了"]),
    Professional := Persona(
      "专业顾问",
      "专业人士视角，干货输出，专业有条理但不生硬",
      ["今天来聊聊", "给大家科普一下", "分享一个案例", "来说说"],
      ["其实", "事实上", "根据经验", "关键在于", "建议"],
      ["📌", "💡", "✅", "📝", "🔍"],
      ["这种情况在申诉中很常见", "关键点在于...", "根据我的经验，成功率大概在...", "这里有几个要点需要注意"]),
    Anxious := Persona(
      "焦虑求助者",
      "正在经历困境的留学生，焦虑真实情绪化",
      ["救命", "姐妹们帮帮我", "急急急", "在线等"],
      ["真的", "怎么办", "好慌", "救命", "急"],
      ["😭", "🙏", "🆘", "😰", "💔"],
      ["现在真的不知道该怎么办了", "有没有类似经历的姐妹", "在线等，很急", "救命啊谁来帮帮我"]),
    PersonaType.Critic := Persona(
      "吐槽达人",
      "犀利点评，揭露行业乱象，幽默带点愤怒",
      ["我真的服了", "离大谱", "笑死", "绝了"],
      ["真的服了", "离谱", "笑死", "绝了", "无语"],
      ["😅", "🤡", "💀", "🙄", "😂"],
      ["这波操作我真的看不懂", "8000块就买了个教训", "建议这种机构早点倒闭", "我不是针对谁，但这也太离谱了"])
  ]

  const HashtagLibrary: TagLibrary := TagLibrary(
    ["#留学", "#留学生", "#留学生活", "#海外留学", "#出国留学"],
    map[
      Delay := ["#延期", "#deadline", "#EC申请", "#延期入学"],
      Dropout := ["#退学", "#被开除", "#劝退", "#复学", "#学业危机"],
      Misconduct := ["#学术不端", "#抄袭", "#cheating", "#AI检测", "#Turnitin"],
      Fail := ["#挂科", "#挂科申诉", "#补考", "#成绩复议", "#重修"],
      Leave := ["#休学", "#gap year", "#中断学业", "#LOA"],
      Withdraw := ["#撤课", "#非常规撤课", "#withdraw", "#退课"]
    ],
    map[
      UK := ["#英国留学", "#UCL", "#LSE", "#IC", "#曼大", "#爱丁堡", "#KCL"],
      AU := ["#澳洲留学", "#悉大", "#墨大", "#UNSW", "#莫纳什", "#ANU"],
      US := ["#美国留学", "#NYU", "#USC", "#UCLA", "#哥大", "#波士顿"],
      CA := ["#加拿大留学", "#多大", "#UBC", "#麦吉尔", "#滑铁卢"],
      HK := ["#香港留学", "#港大", "#港中文", "#港科大", "#城大"]
    ],
    ["#学术申诉", "#留学申诉", "#appeal", "#申诉成功", "#申诉经验"])

  const SchoolDatabase: map<SchoolRegion, RegionSchools> := map[
    UK := RegionSchools("英国", [
        School("伦敦大学学院", "UCL"),
        School("帝国理工学院", "IC"),
        School("伦敦政治经济学院", "LSE"),
        School("伦敦国王学院", "KCL"),
        School("曼彻斯特大学", "曼大"),
        School("爱丁堡大学", "爱大"),
        School("华威大学", "华威"),
        School("布里斯托大学", "布大"),
        School("格拉斯哥大学", "格大"),
        School("伯明翰大学", "伯明翰"),
        School("利兹大学", "利兹"),
        School("南安普顿大学", "南安"),
        School("诺丁汉大学", "诺丁汉"),
        School("谢菲尔德大学", "谢菲"),
        School("杜伦大学", "杜伦"),
        School("兰卡斯特大学", "兰卡"),
        School("巴斯大学", "巴斯"),
        School("埃克塞特大学", "埃克塞特")
      ]),
    AU := RegionSchools("澳洲", [
        School("悉尼大学", "悉大"),
        School("墨尔本大学", "墨大"),
        School("新南威尔士大学", "UNSW"),
        School("澳洲国立大学", "ANU"),
        School("莫纳什大学", "莫纳什"),
        School("昆士兰大学", "UQ"),
        School("西澳大学", "UWA"),
        School("阿德莱德大学", "阿大"),
        School("悉尼科技大学", "UTS"),
        School("麦考瑞大学", "MQ"),
        School("皇家墨尔本理工", "RMIT")
      ]),
    US := RegionSchools("美国", [
        School("纽约大学", "NYU"),
        School("南加州大学", "USC"),
        School("加州大学洛杉矶分校", "UCLA"),
        School("哥伦比亚大学", "哥大"),
        School("波士顿大学", "BU"),
        School("东北大学", "NEU"),
        School("加州大学伯克利分校", "UCB"),
        School("宾夕法尼亚大学", "宾大"),
        School("康奈尔大学", "康奈尔"),
        School("卡内基梅隆大学", "CMU"),
        School("约翰霍普金斯大学", "JHU"),
        School("伊利诺伊大学香槟分校", "UIUC"),
        School("密歇根大学", "UMich"),
        School("华盛顿大学", "UW")
      ]),
    CA := RegionSchools("加拿大", [
        School("多伦多大学", "多大"),
        School("英属哥伦比亚大学", "UBC"),
        School("麦吉尔大学", "麦吉尔"),
        School("滑铁卢大学", "滑铁卢"),
        School("阿尔伯塔大学", "阿大"),
        School("麦克马斯特大学", "McMaster"),
        School("女王大学", "Queen's"),
        School("西安大略大学", "Western"),
        School("渥太华大学", "渥大"),
        School("约克大学", "York")
      ]),
    HK := RegionSchools("香港", [
        School("香港大学", "港大"),
        School("香港中文大学", "港中文"),
        School("香港科技大学", "港科大"),
        School("香港城市大学", "城大"),
        School("香港理工大学", "理大"),
        School("香港浸会大学", "浸会")
      ]),
    SG := RegionSchools("新加坡", [
        School("新加坡国立大学", "NUS"),
        School("南洋理工大学", "NTU"),
        School("新加坡管理大学", "SMU")
      ]),
    EU := RegionSchools("欧洲其他", [
        School("阿姆斯特丹大学", "UvA"),
        School("代尔夫特理工", "TU Delft"),
        School("慕尼黑工业大学", "TUM"),
        School("苏黎世联邦理工", "ETH"),
        School("巴黎高等商学院", "HEC"),
        School("博科尼大学", "Bocconi")
      ])
  ]

  const HotContentDatabase: seq<HotContent> := [
    HotContent("关于我研究生读到一半休学这件事", 5143, "leave", "关于我...这件事", "empathy"),
    HotContent("休学、搬家，我从斯坦福消失的这一年", 1642, "leave", "故事型", "empathy"),
    HotContent("学术不端指控驳回（无中介）", 1311, "misconduct", "成功+无中介", "success"),
    HotContent("这位伯明翰补考挂科的哥们，你要被劝退了", 1132, "fail", "第三人称警示", "warning"),
    HotContent("一次挂科之后。。我学到了", 631, "fail", "经验分享", "empathy"),
    HotContent("95后留学生，休学后身价70亿", 608, "leave", "反转震撼", "success"),
    HotContent("某留学申诉机构，劝大家避雷", 573, "misconduct", "避雷型", "warning"),
    HotContent("城大留位费申请延期成功（模版在图2图3）", 680, "delay", "成功+模版", "success"),
    HotContent("IC再见，我休学了", 414, "leave", "告别型", "empathy"),
    HotContent("新南AI率高被指控学术不端：三步成功洗白", 77, "misconduct", "步骤型", "success"),
    HotContent("被UCL退学后，我是怎么翻盘的", 892, "dropout", "逆袭型", "success"),
    HotContent("留学生挂科申诉全攻略（亲测有效）", 756, "fail", "攻略型", "success"),
    HotContent("我花了3万找中介申诉，结果...", 1024, "misconduct", "悬念型", "warning"),
    HotContent("Turnitin查重率80%，我是怎么过的", 445, "misconduct", "数据型", "success"),
    HotContent("延期申请被拒？试试这个方法", 367, "delay", "建议型", "help"),
    HotContent("休学一年后，我想明白了这些事", 523, "leave", "感悟型", "empathy"),
    HotContent("被指控作弊的第7天，我崩溃了", 789, "misconduct", "日记型", "empathy"),
    HotContent("这个学校的撤课政策也太坑了", 234, "withdraw", "吐槽型", "critic"),
    HotContent("补考前一天，我做了这件事", 456, "fail", "悬念型", "empathy"),
    HotContent("留学5年，我被退学了3次", 1567, "dropout", "震撼型", "empathy")
  ]


  const AllRegions: set<SchoolRegion> := {UK, AU, US, CA, HK, SG, EU}

  /** The scenario, emotion and persona tables have an entry for every value of their key type. */
  lemma TablesAreTotal(s: Scenario, e: Emotion, p: PersonaType)
    ensures s in Scenarios && e in Emotions && p in DefaultPersonas
    ensures s in HashtagLibrary.scenario
  {
  }

  /** The school database covers exactly the seven regions. */
  lemma SchoolDatabaseRegions()
    ensures SchoolDatabase.Keys == AllRegions
    ensures |SchoolDatabase| == 7
  {
    SchoolDatabaseKeys();
    AllRegionsCount();
    assert |SchoolDatabase| == |SchoolDatabase.Keys|;
  }

  /** Every region has an entry, and nothing else does. */
  lemma SchoolDatabaseKeys()
    ensures SchoolDatabase.Keys == AllRegions
  {
  }

  /** The seven regions are distinct. */
  lemma AllRegionsCount()
    ensures |AllRegions| == 7
  {
  }

  /** The region labels are the ones shown in the UI. */
  lemma SchoolRegionLabels()
    ensures UK in SchoolDatabase && SchoolDatabase[UK].labelText == "英国"
    ensures US in SchoolDatabase && SchoolDatabase[US].labelText == "美国"
  {
  }

  /** Every region lists at least one school, and every school has a name and an abbreviation. */
  lemma SchoolListsWellFormed(r: SchoolRegion)
    ensures r in SchoolDatabase && |SchoolDatabase[r].schools| > 0
    ensures forall k :: 0 <= k < |SchoolDatabase[r].schools| ==>
      SchoolDatabase[r].schools[k].name != "" && SchoolDatabase[r].schools[k].abbr != ""
  {
  }

  /** Region hashtags exist for uk, au, us, ca and hk only: sg and eu have none. */
  lemma HashtagRegions()
    ensures HashtagLibrary.school.Keys == {UK, AU, US, CA, HK}
    ensures SG !in HashtagLibrary.school && EU !in HashtagLibrary.school
  {
  }

  /**
   * The hashtag tables are long enough for the slices taken from them: general and appeal hold
   * five tags, every scenario at least four and every region that has tags at least five.
   */
  lemma HashtagTableSizes(s: Scenario)
    ensures |HashtagLibrary.general| == 5 && |HashtagLibrary.appeal| == 5
    ensures s in HashtagLibrary.scenario && |HashtagLibrary.scenario[s]| >= 4
    ensures forall r :: r in HashtagLibrary.school ==> |HashtagLibrary.school[r]| >= 5
  {
  }

  /** The scenario tags of `s`; every scenario has at least four. */
  function ScenarioTags(s: Scenario): (r: seq<string>)
    ensures |r| >= 4
    ensures s in HashtagLibrary.scenario && r == HashtagLibrary.scenario[s]
  {
    HashtagTableSizes(s);
    HashtagLibrary.scenario[s]
  }

  /** The hot-post database holds twenty entries whose scenario and emotion are valid keys. */
  lemma HotContentWellFormed()
    ensures |HotContentDatabase| == 20
    ensures forall k :: 0 <= k < |HotContentDatabase| ==>
      ParseScenario(HotContentDatabase[k].scenario).Some? && ParseEmotion(HotContentDatabase[k].emotion).Some?
  {
  }
}
