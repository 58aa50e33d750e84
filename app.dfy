/** The state of App.tsx: the profile list with its saved copy, the selected
    profile, the analysis inputs (uploaded files, text, perspective) and the last
    analysis result or error. Each handler is a method of `ProfileStore`, proved
    against a step function on `StoreState` about which the lemmas speak. The
    time, the confirmation dialog and the model's answer are parameters. */
module App {
  import opened Types
  import Strings
  import GeminiService

  // ---- persistence ----------------------------------------------------------

  /** What `localStorage.getItem` gives back: nothing, the empty text, text that
      `JSON.parse` rejects, or a parsed profile list. */
  datatype StoredValue = Absent | EmptyText | Unparseable | Parsed(profiles: seq<ClientProfile>)

  /** `localStorage.setItem(key, JSON.stringify(ps))`. */
  function Persist(ps: seq<ClientProfile>): StoredValue
  {
    Parsed(ps)
  }

  /** The four demonstration profiles shipped with the application; `now` is the
      time the module is loaded. */
  function MockProfiles(now: int): seq<ClientProfile>
  {
    var mbtiParent := MbtiAnalysis("ESTJ", "总经理型 - 注重效率与规则",
      "偏好具体事实(S)和逻辑判断(T)，希望看到清晰的练习计划。",
      "给她看详细的课程大纲和阶段性成果数据，不要谈空泛的理念。");
    var mbtiChild := MbtiAnalysis("ESFP", "表演者型 - 天生的艺人",
      "喜欢动手操作，活在当下(S)，反感枯燥理论。",
      "使用游戏化教学，多给上台展示机会，减少长时间说教。");
    var guide := ChildInteractionGuide("活泼好动，坐不住", Some(mbtiChild), ["积分兑换礼物"], ["奥特曼"],
      ["多鼓励", "游戏化教学"], ["长时间说教"], "带他玩5分钟游戏再开始上课");
    var analysis := PersonalityAnalysisResult("典型的责任心强、关注细节的家长。", ["严谨", "负责", "焦虑"],
      "注重逻辑和结果，喜欢直接反馈", Some(mbtiParent), ["提供数据支持", "按时反馈", "指令清晰"],
      ["迟到", "含糊其辞", "随意更改计划"], "展示课程的长期规划和性价比分析", Some(guide));
    [ ClientProfile("1", "陈妈妈", Parent, Regular, Some(35), Some("女"), Some("会计"), Some("轩轩"), Some(6),
        Some("男"), "阳光花园一期", Piano, now - 100000000, Standard, 3, None, Some("声乐课剩余 5 节"),
        Some("2"), Some([]), Some(""), Some(analysis), ["外向活泼", "容易分心"], ["瓶颈期", "需家长督促"],
        ["兴趣培养", "注重服务"], "平时比较忙，一般晚上回复",
        "[10/12] 家长反馈练习时间少，建议制定时间表。\n[10/25] 孩子回课有进步，家长很高兴。", None),
      ClientProfile("2", "李先生", AdultStudent, Regular, Some(28), Some("男"), Some("程序员"), None, None,
        None, "科技园", Guitar, now - 50000000, Premium, 12, None, None,
        Some("1"), Some([]), None, None, ["专注力高", "内向害羞"], ["兴趣浓厚"],
        ["提升气质"], "", "", None),
      ClientProfile("3", "张女士", Parent, Trial, Some(32), Some("女"), Some(""), Some("小宝"), Some(5),
        Some("女"), "御景湾", Ukulele, now - 2000000, Standard, 0, Some(2), Some(""),
        Some("1"), Some([]), None, None, ["需要鼓励"], ["体验良好", "对比价格"],
        ["价格敏感"], "第一次试听很开心，但觉得价格偏高", "[11/01] 第一次试听结束，孩子很喜欢老师。", None),
      ClientProfile("4", "刘爸爸", Parent, Lead, Some(40), Some("男"), Some("企业主"), Some("浩浩"), Some(8),
        Some("男"), "未知", Piano, now, Standard, 0, Some(0), None,
        None, Some([]), None, None, [], ["初次接触"],
        ["考级证书"], "朋友圈咨询，想了解考级路线", "", None) ]
  }

  /** The demonstration list is non-empty, its ids are distinct, and its first
      profile is "1". */
  lemma MockProfilesShape(now: int)
    ensures |MockProfiles(now)| == 4 && MockProfiles(now)[0].id == "1"
    ensures forall i, j | 0 <= i < j < |MockProfiles(now)| :: MockProfiles(now)[i].id != MockProfiles(now)[j].id
  {
    var ps := MockProfiles(now);
    assert ps[0].id == "1" && ps[1].id == "2" && ps[2].id == "3" && ps[3].id == "4";
  }

  /** The initial profile list: the saved list when there is non-empty saved text
      that parses, the demonstration list otherwise. */
  function LoadProfiles(stored: StoredValue, now: int): seq<ClientProfile>
  {
    match stored
    case Parsed(ps) => ps
    case _ => MockProfiles(now)
  }

  /** The initially selected id: the first profile's, or none for an empty list. */
  function InitialSelection(ps: seq<ClientProfile>): (sel: Option<string>)
    ensures sel.Some? <==> |ps| > 0
    ensures sel.Some? ==> sel.value == ps[0].id
  {
    if |ps| > 0 then Some(ps[0].id) else None
  }

  /** Saving and loading again gives back exactly the saved list. */
  lemma {:induction false} LoadPersisted(ps: seq<ClientProfile>, now: int)
    ensures LoadProfiles(Persist(ps), now) == ps
  {
  }

  /** Whatever is stored but a parsed list, the application starts with the
      demonstration profiles and selects profile "1". */
  lemma LoadFallsBackToMock(stored: StoredValue, now: int)
    requires !stored.Parsed?
    ensures |LoadProfiles(stored, now)| == 4
    ensures InitialSelection(LoadProfiles(stored, now)) == Some("1")
  {
    MockProfilesShape(now);
  }

  // ---- new profiles ---------------------------------------------------------

  /** `NEW_PROFILE_TEMPLATE`, built with the time `t` at which it is evaluated. */
  function Template(t: int): ClientProfile
  {
    ClientProfile("", "", Parent, Regular, None, Some(""), Some(""), Some(""), Some(6),
      None, "", Piano, t, Standard, 16, None, None,
      Some("1"), Some([]), Some(""), None, [], [], [], "", "", None)
  }

  /** The new profile as the source builds it: the template is a module-level
      constant, so its `addDate` is the time the module was loaded, whatever the
      time the profile is added. */
  function NewProfileAsWritten(newId: string, loadTime: int): (p: ClientProfile)
    ensures p.addDate == loadTime
  {
    Template(loadTime).(id := newId, name := "新学员")
  }

  /** Two profiles added at different moments of one session get the same
      creation date, which is neither moment unless it is the load time. */
  lemma AsWrittenAddDateIgnoresCreationTime(id1: string, id2: string, loadTime: int, t1: int, t2: int)
    requires loadTime < t1 < t2
    ensures NewProfileAsWritten(id1, loadTime).addDate == NewProfileAsWritten(id2, loadTime).addDate
    ensures NewProfileAsWritten(id1, loadTime).addDate != t1
    ensures NewProfileAsWritten(id2, loadTime).addDate != t2
  {
  }

  /** The new profile as intended: the template's defaults, the new id, the name
      "新学员", and the time it is added as its creation date. */
  function NewProfile(newId: string, createdAt: int): (p: ClientProfile)
    ensures p.id == newId && p.name == "新学员" && p.addDate == createdAt
    ensures p.status == Regular && p.clientType == Parent && p.remainingLessons == 16
    ensures p.historySummary == "" && p.learningState == [] && p.parentFocus == [] && p.studentPersonality == []
  {
    Template(createdAt).(id := newId, name := "新学员")
  }

  /** The intended profile differs from the one written only in its creation date. */
  lemma NewProfileDiffersOnlyInDate(newId: string, loadTime: int, createdAt: int)
    ensures NewProfile(newId, createdAt).(addDate := loadTime) == NewProfileAsWritten(newId, loadTime)
  {
  }

  // ---- shallow merge --------------------------------------------------------

  function Pick<T>(o: Option<T>, d: T): T
  {
    if o.Some? then o.value else d
  }

  /** `{ ...p, ...patch }`: every key present in the patch replaces the profile's value. */
  function Merge(p: ClientProfile, u: Patch): ClientProfile
  {
    ClientProfile(Pick(u.id, p.id), Pick(u.name, p.name), Pick(u.clientType, p.clientType),
      Pick(u.status, p.status), Pick(u.age, p.age), Pick(u.gender, p.gender),
      Pick(u.occupation, p.occupation), Pick(u.childName, p.childName), Pick(u.childAge, p.childAge),
      Pick(u.childGender, p.childGender), Pick(u.address, p.address), Pick(u.course, p.course),
      Pick(u.addDate, p.addDate), Pick(u.currentPackage, p.currentPackage),
      Pick(u.remainingLessons, p.remainingLessons), Pick(u.trialRemainingLessons, p.trialRemainingLessons),
      Pick(u.otherPackages, p.otherPackages), Pick(u.weeklyFrequency, p.weeklyFrequency),
      Pick(u.profileScreenshots, p.profileScreenshots), Pick(u.personalityNotes, p.personalityNotes),
      Pick(u.personalityAnalysis, p.personalityAnalysis), Pick(u.studentPersonality, p.studentPersonality),
      Pick(u.learningState, p.learningState), Pick(u.parentFocus, p.parentFocus),
      Pick(u.otherInfo, p.otherInfo), Pick(u.historySummary, p.historySummary),
      Pick(u.feedbackConfig, p.feedbackConfig))
  }

  /** The empty update changes nothing. */
  lemma MergeEmpty(p: ClientProfile)
    ensures Merge(p, EmptyPatch) == p
  {
  }

  /** Spreading a whole profile replaces the old one entirely. */
  lemma MergeFull(p: ClientProfile, q: ClientProfile)
    ensures Merge(p, FullPatch(q)) == q
  {
  }

  /** Applying the same update twice is applying it once. */
  lemma MergeIdempotent(p: ClientProfile, u: Patch)
    ensures Merge(Merge(p, u), u) == Merge(p, u)
  {
  }

  // ---- finding, updating and removing by id ---------------------------------

  predicate HasId(ps: seq<ClientProfile>, id: string)
  {
    exists i | 0 <= i < |ps| :: ps[i].id == id
  }

  /** `ps.find(p => p.id === id)`: the first profile carrying the id. */
  function FindById(ps: seq<ClientProfile>, id: string): (r: Option<ClientProfile>)
    ensures r.Some? <==> HasId(ps, id)
    ensures r.Some? ==> r.value.id == id && r.value in ps
    ensures r.Some? && ps[0].id != id ==> r == FindById(ps[1..], id)
    ensures |ps| > 0 && ps[0].id == id ==> r == Some(ps[0])
  {
    if ps == [] then None
    else if ps[0].id == id then Some(ps[0])
    else
      var r := FindById(ps[1..], id);
      assert HasId(ps[1..], id) ==> HasId(ps, id);
      assert HasId(ps, id) ==> HasId(ps[1..], id) by {
        if HasId(ps, id) {
          var i :| 0 <= i < |ps| && ps[i].id == id;
          assert ps[1..][i - 1].id == id;
        }
      }
      r
  }

  /** `ps.map(p => p.id === id ? { ...p, ...patch } : p)`. */
  function UpdateWhere(ps: seq<ClientProfile>, id: string, u: Patch): (r: seq<ClientProfile>)
    ensures |r| == |ps|
    ensures forall i | 0 <= i < |ps| :: r[i] == (if ps[i].id == id then Merge(ps[i], u) else ps[i])
  {
    if ps == [] then [] else [if ps[0].id == id then Merge(ps[0], u) else ps[0]] + UpdateWhere(ps[1..], id, u)
  }

  /** `ps.filter(p => p.id !== id)`. */
  function RemoveId(ps: seq<ClientProfile>, id: string): (r: seq<ClientProfile>)
    ensures forall p | p in r :: p in ps && p.id != id
    ensures forall p | p in ps && p.id != id :: p in r
    ensures |r| <= |ps|
    ensures !HasId(ps, id) ==> r == ps
  {
    if ps == [] then []
    else
      var rest := RemoveId(ps[1..], id);
      RemoveIdCons(ps, id, rest);
      if ps[0].id == id then rest else [ps[0]] + rest
  }

  /** The step of `RemoveId`: what holds of the filtered tail holds of the whole
      list once its head is kept or dropped. */
  lemma RemoveIdCons(ps: seq<ClientProfile>, id: string, rest: seq<ClientProfile>)
    requires ps != []
    requires forall p | p in rest :: p in ps[1..] && p.id != id
    requires forall p | p in ps[1..] && p.id != id :: p in rest
    requires |rest| <= |ps[1..]|
    requires !HasId(ps[1..], id) ==> rest == ps[1..]
    ensures var r := if ps[0].id == id then rest else [ps[0]] + rest;
      && (forall p | p in r :: p in ps && p.id != id)
      && (forall p | p in ps && p.id != id :: p in r)
      && |r| <= |ps|
      && (!HasId(ps, id) ==> r == ps)
  {
    assert !HasId(ps, id) ==> !HasId(ps[1..], id) by {
      if HasId(ps[1..], id) {
        var i :| 0 <= i < |ps[1..]| && ps[1..][i].id == id;
        assert ps[i + 1].id == id;
      }
    }
    assert ps == [ps[0]] + ps[1..];
  }

  /** `s.filter((_, j) => j !== i)`: the element at `i` goes, the others keep their
      order; an index out of range removes nothing. */
  function RemoveAt<T>(s: seq<T>, i: int): (r: seq<T>)
    ensures !(0 <= i < |s|) ==> r == s
    ensures 0 <= i < |s| ==>
      (|r| == |s| - 1
       && (forall j | 0 <= j < i :: r[j] == s[j])
       && (forall j | i <= j < |r| :: r[j] == s[j + 1]))
  {
    if 0 <= i < |s| then s[..i] + s[i + 1..] else s
  }

  /** Removing by index takes out exactly that one element. */
  lemma RemoveAtMultiset<T>(s: seq<T>, i: int)
    requires 0 <= i < |s|
    ensures multiset(RemoveAt(s, i)) + multiset{s[i]} == multiset(s)
  {
    assert s == s[..i] + [s[i]] + s[i + 1..];
  }

  // ---- history --------------------------------------------------------------

  /** `history ? history + '\n' + entry : entry`. Earlier lines are kept as they
      are and the entry's lines come after them; an empty history becomes the
      entry itself. */
  function AppendHistory(history: string, entry: string): (r: string)
    ensures history == "" ==> r == entry
    ensures history != "" ==> Strings.StartsWith(r, history)
    ensures history != "" ==> Strings.Split(r, '\n') == Strings.Split(history, '\n') + Strings.Split(entry, '\n')
    ensures Strings.LastPiece(r, '\n') == Strings.LastPiece(entry, '\n')
  {
    if history == "" then entry
    else
      Strings.SplitAppend(history, entry, '\n');
      Strings.LastPieceAfterSeparator(history, entry, '\n');
      assert history + "\n" + entry == history + ['\n'] + entry;
      history + "\n" + entry
  }

  /** Appending a one-line entry to a non-empty history adds exactly one line. */
  lemma AppendOneLine(history: string, entry: string)
    requires history != "" && '\n' !in entry
    ensures |Strings.Split(AppendHistory(history, entry), '\n')| == |Strings.Split(history, '\n')| + 1
    ensures Strings.LastPiece(AppendHistory(history, entry), '\n') == entry
  {
    Strings.SplitWithoutSeparator(entry, '\n');
  }

  // ---- tag union ------------------------------------------------------------

  /** `[...new Set(s)]`: each value once, at the place of its first occurrence. */
  function Dedup(s: seq<string>): (r: seq<string>)
    ensures NoDup(r)
    ensures forall x :: x in r <==> x in s
    decreases |s|
  {
    if s == [] then []
    else
      var d := Dedup(s[..|s| - 1]);
      var x := s[|s| - 1];
      assert s == s[..|s| - 1] + [x];
      if x in d then d else d + [x]
  }

  /** The values of `sug` that are not in `existing`, in order (repetitions kept). */
  function Fresh(existing: seq<string>, sug: seq<string>): (r: seq<string>)
    ensures forall x :: x in r <==> x in sug && x !in existing
    decreases |sug|
  {
    if sug == [] then []
    else
      var x := sug[|sug| - 1];
      assert sug == sug[..|sug| - 1] + [x];
      if x in existing then Fresh(existing, sug[..|sug| - 1]) else Fresh(existing, sug[..|sug| - 1]) + [x]
  }

  /** `[...new Set([...existing, ...sug])]`. */
  function UnionTags(existing: seq<string>, sug: seq<string>): seq<string>
  {
    Dedup(existing + sug)
  }

  /** A list without repetitions is its own deduplication. */
  lemma {:induction false} DedupOfNoDup(s: seq<string>)
    requires NoDup(s)
    ensures Dedup(s) == s
    decreases |s|
  {
    if s != [] {
      var p := s[..|s| - 1];
      assert NoDup(p);
      DedupOfNoDup(p);
      assert s[|s| - 1] !in p;
      assert s == p + [s[|s| - 1]];
    }
  }

  /** The union keeps the existing tags first, in their order, and appends each new
      suggested tag once, in the order it is first suggested. */
  lemma {:induction false} UnionAppendsFresh(existing: seq<string>, sug: seq<string>)
    requires NoDup(existing)
    ensures UnionTags(existing, sug) == existing + Dedup(Fresh(existing, sug))
    decreases |sug|
  {
    if sug == [] {
      assert existing + sug == existing;
      DedupOfNoDup(existing);
    } else {
      var s' := sug[..|sug| - 1];
      var x := sug[|sug| - 1];
      UnionAppendsFresh(existing, s');
      assert sug == s' + [x];
      UnionAppendsOne(existing, s', x);
    }
  }

  /** The step of `UnionAppendsFresh` for one more suggestion. */
  lemma UnionAppendsOne(existing: seq<string>, s': seq<string>, x: string)
    requires Dedup(existing + s') == existing + Dedup(Fresh(existing, s'))
    ensures Dedup(existing + (s' + [x])) == existing + Dedup(Fresh(existing, s' + [x]))
  {
    var f := Fresh(existing, s');
    assert existing + (s' + [x]) == (existing + s') + [x];
    DedupSnoc(existing + s', x);
    FreshSnoc(existing, s', x);
    DedupSnoc(f, x);
    AppendOneMore(existing, Dedup(f), x);
  }

  /** Appending `x` to `e + d` unless present is `e` followed by `d` with `x`
      appended unless present, when `x` is not in `e`. */
  lemma AppendOneMore(e: seq<string>, d: seq<string>, x: string)
    ensures (if x in e + d then e + d else e + d + [x])
      == if x in e then e + d else e + (if x in d then d else d + [x])
  {
    assert x in e + d <==> x in e || x in d;
  }

  /** One step of `Fresh` at the end of the suggestions. */
  lemma FreshSnoc(existing: seq<string>, s: seq<string>, x: string)
    ensures Fresh(existing, s + [x]) == if x in existing then Fresh(existing, s) else Fresh(existing, s) + [x]
  {
    assert (s + [x])[..|s + [x]| - 1] == s;
  }

  /** One step of `Dedup` at the end of the list. */
  lemma DedupSnoc(s: seq<string>, x: string)
    ensures Dedup(s + [x]) == if x in Dedup(s) then Dedup(s) else Dedup(s) + [x]
  {
    assert (s + [x])[..|s + [x]| - 1] == s;
  }

  /** When every suggested tag is already there, nothing is fresh. */
  lemma {:induction false} FreshOfCovered(existing: seq<string>, sug: seq<string>)
    requires forall x | x in sug :: x in existing
    ensures Fresh(existing, sug) == []
    decreases |sug|
  {
    if sug != [] {
      var s' := sug[..|sug| - 1];
      assert forall x | x in s' :: x in sug;
      FreshOfCovered(existing, s');
      assert sug[|sug| - 1] in sug;
    }
  }

  /** Merging the same suggestion a second time changes nothing. */
  lemma UnionIdempotent(existing: seq<string>, sug: seq<string>)
    ensures UnionTags(UnionTags(existing, sug), sug) == UnionTags(existing, sug)
  {
    var u := UnionTags(existing, sug);
    UnionAppendsFresh(u, sug);
    FreshOfCovered(u, sug);
    assert u + [] == u;
  }

  /** In a list without repetitions each present value is counted once. */
  lemma {:induction false} NoDupCountsOnce<T>(s: seq<T>, x: T)
    requires NoDup(s) && x in s
    ensures multiset(s)[x] == 1
    decreases |s|
  {
    var p := s[..|s| - 1];
    var y := s[|s| - 1];
    assert s == p + [y];
    assert NoDup(p);
    if y == x {
      assert x !in p;
    } else {
      NoDupCountsOnce(p, x);
    }
  }

  // ---- the interaction analysis update ---------------------------------------

  function SuggestedLearningState(s: Option<ProfileUpdateSuggestion>): seq<string>
  {
    if s.Some? && s.value.learningState.Some? then s.value.learningState.value else []
  }

  function SuggestedParentFocus(s: Option<ProfileUpdateSuggestion>): seq<string>
  {
    if s.Some? && s.value.parentFocus.Some? then s.value.parentFocus.value else []
  }

  function SuggestedPersonality(s: Option<ProfileUpdateSuggestion>): seq<string>
  {
    if s.Some? && s.value.studentPersonality.Some? then s.value.studentPersonality.value else []
  }

  /** Merges each suggested tag list into the profile's list of the same name. A
      merged list holds exactly the old and the suggested tags, each once; the
      suggested `otherInfo` and every other field are left alone. */
  function MergeSuggestedTags(p: ClientProfile, s: Option<ProfileUpdateSuggestion>): (r: ClientProfile)
    ensures r.(learningState := p.learningState, parentFocus := p.parentFocus,
               studentPersonality := p.studentPersonality) == p
    ensures forall x :: x in r.learningState <==> x in p.learningState || x in SuggestedLearningState(s)
    ensures forall x :: x in r.parentFocus <==> x in p.parentFocus || x in SuggestedParentFocus(s)
    ensures forall x :: x in r.studentPersonality <==> x in p.studentPersonality || x in SuggestedPersonality(s)
    ensures s.Some? && s.value.learningState.Some? ==> NoDup(r.learningState)
    ensures s.Some? && s.value.parentFocus.Some? ==> NoDup(r.parentFocus)
    ensures s.Some? && s.value.studentPersonality.Some? ==> NoDup(r.studentPersonality)
    ensures r.learningState == if s.Some? && s.value.learningState.Some?
      then UnionTags(p.learningState, s.value.learningState.value) else p.learningState
    ensures r.parentFocus == if s.Some? && s.value.parentFocus.Some?
      then UnionTags(p.parentFocus, s.value.parentFocus.value) else p.parentFocus
    ensures r.studentPersonality == if s.Some? && s.value.studentPersonality.Some?
      then UnionTags(p.studentPersonality, s.value.studentPersonality.value) else p.studentPersonality
  {
    if s.None? then p
    else
      var u := s.value;
      p.(learningState := if u.learningState.Some? then UnionTags(p.learningState, u.learningState.value) else p.learningState,
         parentFocus := if u.parentFocus.Some? then UnionTags(p.parentFocus, u.parentFocus.value) else p.parentFocus,
         studentPersonality := if u.studentPersonality.Some? then UnionTags(p.studentPersonality, u.studentPersonality.value) else p.studentPersonality)
  }

  function PerspectiveLabel(v: InputPerspective): string
  {
    match v
    case FromParent => "家长消息"
    case FromTeacher => "顾问/老师主动"
  }

  /** `[${dateStr}] (${perspectiveLabel}) ${summary}`. */
  function AnalysisEntry(dateStr: string, v: InputPerspective, summary: string): string
  {
    "[" + dateStr + "] (" + PerspectiveLabel(v) + ") " + summary
  }

  /** The profile after a successful analysis: the entry appended to its history,
      then the suggested tags merged. */
  function AfterAnalysis(p: ClientProfile, dateStr: string, v: InputPerspective, a: AnalysisResult): ClientProfile
  {
    MergeSuggestedTags(p.(historySummary := AppendHistory(p.historySummary, AnalysisEntry(dateStr, v, a.interactionSummary))),
                       a.profileUpdateSuggestion)
  }

  /** A successful analysis keeps every earlier history line and tag, adds the
      entry as the last history line, adds the suggested tags, and touches no
      other field. */
  lemma AfterAnalysisEffect(p: ClientProfile, dateStr: string, v: InputPerspective, a: AnalysisResult)
    ensures var r := AfterAnalysis(p, dateStr, v, a);
      var entry := AnalysisEntry(dateStr, v, a.interactionSummary);
      && r.(historySummary := p.historySummary, learningState := p.learningState,
            parentFocus := p.parentFocus, studentPersonality := p.studentPersonality) == p
      && (p.historySummary == "" ==> r.historySummary == entry)
      && (p.historySummary != "" ==>
            Strings.Split(r.historySummary, '\n') == Strings.Split(p.historySummary, '\n') + Strings.Split(entry, '\n'))
      && Strings.LastPiece(r.historySummary, '\n') == Strings.LastPiece(entry, '\n')
      && (forall x | x in p.learningState :: x in r.learningState)
      && (forall x | x in p.parentFocus :: x in r.parentFocus)
      && (forall x | x in p.studentPersonality :: x in r.studentPersonality)
      && (forall x | x in SuggestedLearningState(a.profileUpdateSuggestion) :: x in r.learningState)
      && (forall x | x in SuggestedParentFocus(a.profileUpdateSuggestion) :: x in r.parentFocus)
      && (forall x | x in SuggestedPersonality(a.profileUpdateSuggestion) :: x in r.studentPersonality)
      && r.learningState == (if a.profileUpdateSuggestion.Some? && a.profileUpdateSuggestion.value.learningState.Some?
           then UnionTags(p.learningState, a.profileUpdateSuggestion.value.learningState.value) else p.learningState)
      && r.parentFocus == (if a.profileUpdateSuggestion.Some? && a.profileUpdateSuggestion.value.parentFocus.Some?
           then UnionTags(p.parentFocus, a.profileUpdateSuggestion.value.parentFocus.value) else p.parentFocus)
      && r.studentPersonality == (if a.profileUpdateSuggestion.Some? && a.profileUpdateSuggestion.value.studentPersonality.Some?
           then UnionTags(p.studentPersonality, a.profileUpdateSuggestion.value.studentPersonality.value) else p.studentPersonality)
  {
  }

  /** A suggested learning-state tag appears exactly once afterwards, even when the
      profile already had it. */
  lemma SuggestedTagOnce(p: ClientProfile, dateStr: string, v: InputPerspective, a: AnalysisResult, tag: string)
    requires a.profileUpdateSuggestion.Some? && a.profileUpdateSuggestion.value.learningState.Some?
    requires tag in a.profileUpdateSuggestion.value.learningState.value
    ensures multiset(AfterAnalysis(p, dateStr, v, a).learningState)[tag] == 1
  {
    var r := AfterAnalysis(p, dateStr, v, a);
    NoDupCountsOnce(r.learningState, tag);
  }

  // ---- the store --------------------------------------------------------------

  datatype FileKind = ImageFile | PdfFile

  /** An attached file: its kind and its data URL. */
  datatype UploadedFile = UploadedFile(kind: FileKind, data: string)

  /** A file handed to the application, with its MIME type and its data URL. */
  datatype IncomingFile = IncomingFile(mimeType: string, dataUrl: string)

  /** Only images and PDF documents are accepted. */
  predicate Accepted(f: IncomingFile)
  {
    Strings.StartsWith(f.mimeType, "image/") || f.mimeType == "application/pdf"
  }

  function ToUploaded(f: IncomingFile): UploadedFile
  {
    UploadedFile(if f.mimeType == "application/pdf" then PdfFile else ImageFile, f.dataUrl)
  }

  /** The accepted files, in order, with their kind. */
  function AcceptedFiles(files: seq<IncomingFile>): (r: seq<UploadedFile>)
    ensures |r| <= |files|
    ensures r == [] <==> forall i | 0 <= i < |files| :: !Accepted(files[i])
    ensures forall f | f in files && Accepted(f) :: ToUploaded(f) in r
    ensures forall u | u in r :: exists f | f in files :: Accepted(f) && u == ToUploaded(f)
  {
    if files == [] then []
    else
      var rest := AcceptedFiles(files[1..]);
      assert forall f | f in files[1..] :: f in files;
      assert forall f | f in files && f != files[0] :: f in files[1..];
      assert (forall i | 0 <= i < |files| :: !Accepted(files[i]))
        <==> !Accepted(files[0]) && (forall i | 0 <= i < |files[1..]| :: !Accepted(files[1..][i])) by {
        forall i | 1 <= i < |files| ensures files[i] == files[1..][i - 1] { }
      }
      if Accepted(files[0]) then [ToUploaded(files[0])] + rest else rest
  }

  /** The accepted files keep their order: accepting from a list with one more file
      appended accepts from the earlier ones and then that file, if accepted. */
  lemma {:induction false} AcceptedFilesSnoc(files: seq<IncomingFile>, f: IncomingFile)
    ensures AcceptedFiles(files + [f]) == AcceptedFiles(files) + (if Accepted(f) then [ToUploaded(f)] else [])
  {
    if files == [] {
      assert [] + [f] == [f];
      assert [f][1..] == [];
    } else {
      assert (files + [f])[1..] == files[1..] + [f];
      AcceptedFilesSnoc(files[1..], f);
    }
  }

  /** The image attachments' base64 payloads, in order; PDFs are not sent. */
  function ChatImages(files: seq<UploadedFile>): (r: seq<string>)
    ensures |r| <= |files|
    ensures r == [] <==> forall i | 0 <= i < |files| :: files[i].kind == PdfFile
    ensures forall k | 0 <= k < |r| :: ',' !in r[k]
  {
    if files == [] then []
    else
      var rest := ChatImages(files[1..]);
      assert (forall i | 0 <= i < |files| :: files[i].kind == PdfFile)
        <==> files[0].kind == PdfFile && (forall i | 0 <= i < |files[1..]| :: files[1..][i].kind == PdfFile) by {
        forall i | 1 <= i < |files| ensures files[i] == files[1..][i - 1] { }
      }
      if files[0].kind == ImageFile then [GeminiService.StripDataUrl(files[0].data)] + rest else rest
  }

  /** Only image attachments are sent, each as its stripped payload, in the order
      of the attachments. */
  lemma {:induction false} ChatImagesSnoc(files: seq<UploadedFile>, f: UploadedFile)
    ensures ChatImages(files + [f]) ==
      ChatImages(files) + (if f.kind == ImageFile then [GeminiService.StripDataUrl(f.data)] else [])
  {
    if files == [] {
      assert [] + [f] == [f];
      assert [f][1..] == [];
    } else {
      assert (files + [f])[1..] == files[1..] + [f];
      ChatImagesSnoc(files[1..], f);
    }
  }

  const AppNoInputMessage := "请至少输入文字、上传聊天截图或上传档案资料图"
  const AnalysisFailedMessage := "分析失败，请稍后重试"

  /** The application's own check before analysing: some attachment, some text that
      is not only white space, or some profile screenshot. */
  predicate AppInputPresent(files: seq<UploadedFile>, textInput: string, p: ClientProfile)
  {
    |files| > 0 || !Strings.IsBlank(textInput)
    || (p.profileScreenshots.Some? && |p.profileScreenshots.value| > 0)
  }

  /** Everything App.tsx keeps in its state that the handlers read or write. */
  datatype StoreState = StoreState(
    profiles: seq<ClientProfile>,
    selectedId: Option<string>,
    persisted: StoredValue,
    uploadedFiles: seq<UploadedFile>,
    textInput: string,
    perspective: InputPerspective,
    error: Option<string>,
    result: Option<AnalysisResult>,
    isAnalyzing: bool)

  /** The state when the application starts. */
  function InitialState(stored: StoredValue, now: int): StoreState
  {
    var ps := LoadProfiles(stored, now);
    StoreState(ps, InitialSelection(ps), stored, [], "", FromParent, None, None, false)
  }

  /** `getSelectedProfile()`. */
  function SelectedIn(s: StoreState): Option<ClientProfile>
  {
    if s.selectedId.Some? then FindById(s.profiles, s.selectedId.value) else None
  }

  /** `clearInputs()`. */
  function Cleared(s: StoreState): StoreState
  {
    s.(uploadedFiles := [], textInput := "", error := None, perspective := FromParent)
  }

  /** `handleProfileUpdate(patch)`: every profile with the selected id receives the
      patch; without a (non-empty) selected id nothing happens. */
  function UpdateSelectedStep(s: StoreState, u: Patch): StoreState
  {
    if s.selectedId.Some? && s.selectedId.value != "" then
      s.(profiles := UpdateWhere(s.profiles, s.selectedId.value, u))
    else s
  }

  /** `handleAddProfile()`. */
  function AddProfileStep(s: StoreState, newId: string, createdAt: int): StoreState
  {
    Cleared(s).(profiles := [NewProfile(newId, createdAt)] + s.profiles,
                    selectedId := Some(newId), result := None)
  }

  /** `handleDeleteProfile()`, with the user's answer to the confirmation. */
  function DeleteStep(s: StoreState, confirmed: bool): StoreState
  {
    var current := SelectedIn(s);
    if current.None? || !confirmed then s
    else
      var rest := RemoveId(s.profiles, current.value.id);
      Cleared(s).(profiles := rest, persisted := Persist(rest), selectedId := None, result := None)
  }

  /** Selecting a profile in the list. */
  function SelectStep(s: StoreState, id: string): StoreState
  {
    Cleared(s).(selectedId := Some(id), result := None)
  }

  /** `handleSaveData()`. */
  function SaveStep(s: StoreState): StoreState
  {
    s.(persisted := Persist(s.profiles))
  }

  /** `processInputFiles(files)`. */
  function AttachStep(s: StoreState, files: seq<IncomingFile>): StoreState
  {
    var accepted := AcceptedFiles(files);
    if accepted == [] then s
    else s.(uploadedFiles := s.uploadedFiles + accepted, result := None, error := None)
  }

  /** `removeUploadedFile(i)`. */
  function RemoveFileStep(s: StoreState, i: int): StoreState
  {
    s.(uploadedFiles := RemoveAt(s.uploadedFiles, i))
  }

  /** `handleSaveToHistory(summary)`. */
  function SaveToHistoryStep(s: StoreState, summary: string): StoreState
  {
    var current := SelectedIn(s);
    if current.None? then s
    else
      UpdateSelectedStep(s, FullPatch(current.value.(historySummary := AppendHistory(current.value.historySummary, summary))))
  }

  /** `handleAnalyze()`, given the model's answer and the local date text: the new
      state, and whether the model was asked. */
  function AnalyzeStep(s: StoreState, model: GatewayResult<AnalysisResult>, dateStr: string): (StoreState, bool)
  {
    var current := SelectedIn(s);
    if current.None? then (s, false)
    else if !AppInputPresent(s.uploadedFiles, s.textInput, current.value) then
      (s.(error := Some(AppNoInputMessage)), false)
    else
      var call := GeminiService.AnalyzeInteraction(ChatImages(s.uploadedFiles), s.textInput, current.value, model);
      match call.outcome
      case Reply(a) =>
        var updated := AfterAnalysis(current.value, dateStr, s.perspective, a);
        (UpdateSelectedStep(s.(result := Some(a), error := None), FullPatch(updated)).(isAnalyzing := false),
         call.modelCalled)
      case Failure(msg) =>
        (s.(error := Some(if msg != "" then msg else AnalysisFailedMessage), isAnalyzing := false), call.modelCalled)
  }

  // ---- laws of the store ----------------------------------------------------------

  /** A profile update only touches the profiles carrying the selected id, and
      keeps the list's length and every other part of the state. */
  lemma UpdateSelectedKeepsOthers(s: StoreState, u: Patch)
    ensures var r := UpdateSelectedStep(s, u);
      && r.(profiles := s.profiles) == s
      && |r.profiles| == |s.profiles|
      && (forall i | 0 <= i < |s.profiles| && Some(s.profiles[i].id) != s.selectedId :: r.profiles[i] == s.profiles[i])
  {
  }

  /** Saving the whole selected profile back replaces exactly the selected one. */
  lemma UpdateWithWholeProfile(s: StoreState, q: ClientProfile)
    requires s.selectedId.Some? && s.selectedId.value != ""
    ensures forall i | 0 <= i < |s.profiles| && s.profiles[i].id == s.selectedId.value ::
      UpdateSelectedStep(s, FullPatch(q)).profiles[i] == q
  {
    forall i | 0 <= i < |s.profiles| && s.profiles[i].id == s.selectedId.value
      ensures UpdateSelectedStep(s, FullPatch(q)).profiles[i] == q
    {
      MergeFull(s.profiles[i], q);
    }
  }

  /** A new profile goes to the front of the list and becomes the selected one. */
  lemma AddedProfileIsSelected(s: StoreState, newId: string, createdAt: int)
    ensures var r := AddProfileStep(s, newId, createdAt);
      && SelectedIn(r) == Some(NewProfile(newId, createdAt))
      && r.profiles[1..] == s.profiles
      && r.uploadedFiles == [] && r.textInput == "" && r.error.None? && r.result.None?
  {
    var r := AddProfileStep(s, newId, createdAt);
    assert r.profiles[0].id == newId;
  }

  /** A confirmed deletion removes every profile with the selected id, keeps all
      others, saves the new list so that it loads back unchanged, and leaves
      nothing selected. Without a selection, or when not confirmed, nothing changes. */
  lemma DeleteRemovesSelected(s: StoreState, confirmed: bool, now: int)
    ensures var r := DeleteStep(s, confirmed);
      && (SelectedIn(s).None? || !confirmed ==> r == s)
      && (SelectedIn(s).Some? && confirmed ==>
            && !HasId(r.profiles, s.selectedId.value)
            && (forall p | p in s.profiles && p.id != s.selectedId.value :: p in r.profiles)
            && |r.profiles| < |s.profiles|
            && LoadProfiles(r.persisted, now) == r.profiles
            && r.selectedId.None? && SelectedIn(r).None?)
  {
    var r := DeleteStep(s, confirmed);
    if SelectedIn(s).Some? && confirmed {
      var id := s.selectedId.value;
      var p := SelectedIn(s).value;
      assert p.id == id && p in s.profiles;
      assert r.profiles == RemoveId(s.profiles, id);
      assert |r.profiles| < |s.profiles| by {
        var k :| 0 <= k < |s.profiles| && s.profiles[k] == p;
        RemoveIdShorter(s.profiles, id, k);
      }
      LoadPersisted(r.profiles, now);
    }
  }

  /** The remaining profiles keep their order: removing from a list with one more
      profile appended removes from the earlier ones and then keeps that profile
      unless it has the id. */
  lemma {:induction false} RemoveIdSnoc(ps: seq<ClientProfile>, x: ClientProfile, id: string)
    ensures RemoveId(ps + [x], id) == RemoveId(ps, id) + (if x.id == id then [] else [x])
  {
    if ps == [] {
      assert [] + [x] == [x];
      assert [x][1..] == [];
    } else {
      assert (ps + [x])[1..] == ps[1..] + [x];
      RemoveIdSnoc(ps[1..], x, id);
    }
  }

  /** Removing a present id shortens the list. */
  lemma {:induction false} RemoveIdShorter(ps: seq<ClientProfile>, id: string, k: nat)
    requires k < |ps| && ps[k].id == id
    ensures |RemoveId(ps, id)| < |ps|
  {
    if k > 0 {
      RemoveIdShorter(ps[1..], id, k - 1);
    }
  }

  /** The analysis asks the model only when both the application's check and the
      service's check pass; without a selected profile nothing changes. */
  lemma AnalyzeAsksModelOnlyWithInput(s: StoreState, model: GatewayResult<AnalysisResult>, dateStr: string)
    ensures var (r, called) := AnalyzeStep(s, model, dateStr);
      && (SelectedIn(s).None? ==> r == s && !called)
      && (called <==>
            (SelectedIn(s).Some?
             && AppInputPresent(s.uploadedFiles, s.textInput, SelectedIn(s).value)
             && GeminiService.InteractionInputPresent(ChatImages(s.uploadedFiles), s.textInput, SelectedIn(s).value)))
  {
  }

  /** A failed analysis leaves every profile as it was and reports a non-empty error. */
  lemma AnalyzeFailureKeepsProfiles(s: StoreState, model: GatewayResult<AnalysisResult>, dateStr: string)
    requires SelectedIn(s).Some?
    requires model.Failure? || !AppInputPresent(s.uploadedFiles, s.textInput, SelectedIn(s).value)
    ensures var (r, _) := AnalyzeStep(s, model, dateStr);
      r.profiles == s.profiles && r.result == s.result && r.error.Some? && r.error.value != ""
  {
  }

  /** A successful analysis shows its result, clears the error, and replaces the
      selected profile by its updated copy. */
  lemma AnalyzeSuccessUpdatesProfile(s: StoreState, a: AnalysisResult, dateStr: string)
    requires SelectedIn(s).Some? && s.selectedId.value != ""
    requires AppInputPresent(s.uploadedFiles, s.textInput, SelectedIn(s).value)
    requires GeminiService.InteractionInputPresent(ChatImages(s.uploadedFiles), s.textInput, SelectedIn(s).value)
    ensures var (r, called) := AnalyzeStep(s, Reply(a), dateStr);
      && called && r.result == Some(a) && r.error.None? && !r.isAnalyzing
      && SelectedIn(r) == Some(AfterAnalysis(SelectedIn(s).value, dateStr, s.perspective, a))
  {
    var current := SelectedIn(s).value;
    var updated := AfterAnalysis(current, dateStr, s.perspective, a);
    var (r, _) := AnalyzeStep(s, Reply(a), dateStr);
    var id := s.selectedId.value;
    UpdateWithWholeProfile(s.(result := Some(a), error := None), updated);
    assert updated.id == id;
    FindAfterReplace(s.profiles, r.profiles, id, updated);
  }

  /** When every profile carrying `id` is replaced by `q` (whose id is `id`), finding
      `id` gives `q`. */
  lemma {:induction false} FindAfterReplace(ps: seq<ClientProfile>, rs: seq<ClientProfile>, id: string, q: ClientProfile)
    requires |rs| == |ps| && q.id == id && HasId(ps, id)
    requires forall i | 0 <= i < |ps| :: if ps[i].id == id then rs[i] == q else rs[i] == ps[i]
    ensures FindById(rs, id) == Some(q)
  {
    if ps[0].id != id {
      assert HasId(ps[1..], id) by {
        var i :| 0 <= i < |ps| && ps[i].id == id;
        assert ps[1..][i - 1].id == id;
      }
      FindAfterReplace(ps[1..], rs[1..], id, q);
    }
  }

  /** Only PDFs attached, no text and no screenshot: the application's check lets
      the request through, and the service's own check rejects it with its message. */
  lemma PdfOnlyFailsInService(s: StoreState, model: GatewayResult<AnalysisResult>, dateStr: string)
    requires SelectedIn(s).Some? && s.textInput == ""
    requires |s.uploadedFiles| > 0 && forall i | 0 <= i < |s.uploadedFiles| :: s.uploadedFiles[i].kind == PdfFile
    requires SelectedIn(s).value.profileScreenshots.None? || SelectedIn(s).value.profileScreenshots.value == []
    ensures var (r, called) := AnalyzeStep(s, model, dateStr);
      !called && r.error == Some(GeminiService.NoInputMessage) && r.profiles == s.profiles
  {
  }

  /** Saving a summary to the history of the selected profile adds it after the
      existing lines of every profile carrying the selected id. */
  lemma SaveToHistoryAppends(s: StoreState, summary: string)
    requires SelectedIn(s).Some? && s.selectedId.value != ""
    ensures var r := SaveToHistoryStep(s, summary);
      var p := SelectedIn(s).value;
      && SelectedIn(r) == Some(p.(historySummary := AppendHistory(p.historySummary, summary)))
      && |r.profiles| == |s.profiles|
  {
    var current := SelectedIn(s).value;
    var q := current.(historySummary := AppendHistory(current.historySummary, summary));
    var r := SaveToHistoryStep(s, summary);
    UpdateWithWholeProfile(s, q);
    FindAfterReplace(s.profiles, r.profiles, s.selectedId.value, q);
  }


  // ---- updating and then saving ---------------------------------------------------

  /** The feedback panel's "update the profile, then save" sequence as App.tsx runs
      it: `handleSaveData` is the function of the render in which the panel was
      drawn, so it stores the list as it was before the update. */
  function UpdateThenSaveAsWritten(s: StoreState, u: Patch): (r: StoreState)
    ensures r.persisted == Persist(s.profiles)
    ensures r.profiles == UpdateSelectedStep(s, u).profiles
  {
    UpdateSelectedStep(s, u).(persisted := Persist(s.profiles))
  }

  /** As written, an update that changes the selected profile is not what a reload
      brings back: the stored list still holds the profile as it was. */
  lemma AsWrittenSaveLosesUpdate(s: StoreState, u: Patch, now: int)
    requires SelectedIn(s).Some? && s.selectedId.value != ""
    requires Merge(SelectedIn(s).value, u) != SelectedIn(s).value
    ensures var r := UpdateThenSaveAsWritten(s, u);
      LoadProfiles(r.persisted, now) != r.profiles
  {
    var p := SelectedIn(s).value;
    assert p.id == s.selectedId.value && p in s.profiles;
    var i :| 0 <= i < |s.profiles| && s.profiles[i] == p;
    UpdateChangesList(s.profiles, s.selectedId.value, u, i);
    LoadPersisted(s.profiles, now);
  }

  /** A patch that changes a profile with the id changes the list. */
  lemma UpdateChangesList(ps: seq<ClientProfile>, id: string, u: Patch, i: nat)
    requires i < |ps| && ps[i].id == id && Merge(ps[i], u) != ps[i]
    ensures UpdateWhere(ps, id, u) != ps
  {
    assert UpdateWhere(ps, id, u)[i] != ps[i];
  }

  /** The same sequence with the save reading the list after the update. */
  function UpdateThenSave(s: StoreState, u: Patch): StoreState
  {
    SaveStep(UpdateSelectedStep(s, u))
  }

  /** Updating and then saving stores the updated list: a reload gives back every
      profile as shown, the selected one with the update applied. */
  lemma UpdateThenSaveReloads(s: StoreState, u: Patch, now: int)
    ensures var r := UpdateThenSave(s, u);
      && LoadProfiles(r.persisted, now) == r.profiles
      && (SelectedIn(s).Some? && s.selectedId.value != "" ==> Merge(SelectedIn(s).value, u) in r.profiles)
  {
    var r := UpdateThenSave(s, u);
    LoadPersisted(r.profiles, now);
    if SelectedIn(s).Some? && s.selectedId.value != "" {
      var p := SelectedIn(s).value;
      var i :| 0 <= i < |s.profiles| && s.profiles[i] == p;
      assert r.profiles[i] == Merge(p, u);
    }
  }
  /** The state of App.tsx, its handlers as methods. */
  class ProfileStore {
    var profiles: seq<ClientProfile>
    var selectedId: Option<string>
    var persisted: StoredValue
    var uploadedFiles: seq<UploadedFile>
    var textInput: string
    var perspective: InputPerspective
    var error: Option<string>
    var result: Option<AnalysisResult>
    var isAnalyzing: bool

    function State(): StoreState
      reads this
    {
      StoreState(profiles, selectedId, persisted, uploadedFiles, textInput, perspective, error, result, isAnalyzing)
    }

    /** Loads the saved list (or the demonstration list) and selects its first profile. */
    constructor(stored: StoredValue, now: int)
      ensures State() == InitialState(stored, now)
    {
      profiles := LoadProfiles(stored, now);
      selectedId := InitialSelection(LoadProfiles(stored, now));
      persisted := stored;
      uploadedFiles, textInput, perspective := [], "", FromParent;
      error, result, isAnalyzing := None, None, false;
    }

    function Selected(): Option<ClientProfile>
      reads this
    {
      SelectedIn(State())
    }

    method UpdateSelected(u: Patch)
      modifies this
      ensures State() == UpdateSelectedStep(old(State()), u)
    {
      if selectedId.Some? && selectedId.value != "" {
        profiles := UpdateWhere(profiles, selectedId.value, u);
      }
    }

    method AddProfile(newId: string, createdAt: int)
      modifies this
      ensures State() == AddProfileStep(old(State()), newId, createdAt)
    {
      profiles := [NewProfile(newId, createdAt)] + profiles;
      selectedId := Some(newId);
      result := None;
      ClearInputs();
    }

    method DeleteSelected(confirmed: bool)
      modifies this
      ensures State() == DeleteStep(old(State()), confirmed)
    {
      var current := Selected();
      if current.None? {
        return;
      }
      if confirmed {
        var rest := RemoveId(profiles, current.value.id);
        profiles := rest;
        persisted := Persist(rest);
        selectedId := None;
        ClearInputs();
        result := None;
      }
    }

    method ClearInputs()
      modifies this
      ensures State() == Cleared(old(State()))
    {
      uploadedFiles := [];
      textInput := "";
      error := None;
      perspective := FromParent;
    }

    method Select(id: string)
      modifies this
      ensures State() == SelectStep(old(State()), id)
    {
      selectedId := Some(id);
      result := None;
      ClearInputs();
    }

    method SaveData()
      modifies this
      ensures State() == SaveStep(old(State()))
    {
      persisted := Persist(profiles);
    }

    method AttachFiles(files: seq<IncomingFile>)
      modifies this
      ensures State() == AttachStep(old(State()), files)
    {
      var accepted := AcceptedFiles(files);
      if accepted == [] {
        return;
      }
      uploadedFiles := uploadedFiles + accepted;
      result := None;
      error := None;
    }

    method RemoveUploadedFile(i: int)
      modifies this
      ensures State() == RemoveFileStep(old(State()), i)
    {
      uploadedFiles := RemoveAt(uploadedFiles, i);
    }

    method Analyze(model: GatewayResult<AnalysisResult>, dateStr: string) returns (modelCalled: bool)
      modifies this
      ensures (State(), modelCalled) == AnalyzeStep(old(State()), model, dateStr)
    {
      var current := Selected();
      if current.None? {
        return false;
      }
      if !AppInputPresent(uploadedFiles, textInput, current.value) {
        error := Some(AppNoInputMessage);
        return false;
      }
      isAnalyzing := true;
      error := None;
      var call := GeminiService.AnalyzeInteraction(ChatImages(uploadedFiles), textInput, current.value, model);
      modelCalled := call.modelCalled;
      match call.outcome {
        case Reply(a) =>
          result := Some(a);
          var updated := AfterAnalysis(current.value, dateStr, perspective, a);
          UpdateSelected(FullPatch(updated));
        case Failure(msg) =>
          error := Some(if msg != "" then msg else AnalysisFailedMessage);
      }
      isAnalyzing := false;
    }

    method SaveToHistory(summary: string)
      modifies this
      ensures State() == SaveToHistoryStep(old(State()), summary)
    {
      var current := Selected();
      if current.None? {
        return;
      }
      var updated := current.value.(historySummary := AppendHistory(current.value.historySummary, summary));
      UpdateSelected(FullPatch(updated));
    }
  }
}
