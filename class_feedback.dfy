/** components/ClassFeedbackGenerator.tsx: the after-class feedback panel. It
    loads the student's identity, audience mode, template and metric list from the
    selected profile (a saved configuration first, then the defaults), switches
    the audience mode when the shown age changes, edits the metric list, asks for
    a feedback text, and writes the history and the configuration back through the
    store. */
module ClassFeedback {
  import opened Types
  import Strings
  import Constants
  import GeminiService
  import App

  // ---- identity and audience ------------------------------------------------------

  /** The audience for an age: 18 and over ADULT, 12 to 17 TEEN, below 12 CHILD. */
  function ModeForAge(age: int): (m: TargetAudienceMode)
    ensures m == AdultMode <==> age >= 18
    ensures m == TeenMode <==> 12 <= age < 18
    ensures m == ChildMode <==> age < 12
  {
    if age >= 18 then AdultMode else if age >= 12 then TeenMode else ChildMode
  }

  /** The audience grows up with the age: an older student never gets a younger mode. */
  lemma ModeForAgeMonotone(a: int, b: int)
    requires a <= b
    ensures ModeRank(ModeForAge(a)) <= ModeRank(ModeForAge(b))
  {
  }

  function ModeRank(m: TargetAudienceMode): nat
  {
    match m
    case ChildMode => 0
    case TeenMode => 1
    case AdultMode => 2
  }

  /** What the panel shows and edits, apart from the lesson text and the results. */
  datatype PanelView = PanelView(
    name: string,
    age: int,
    gender: string,
    mode: TargetAudienceMode,
    course: CourseType,
    template: string,
    metrics: seq<PerformanceMetric>)

  /** The profile's own student age as the panel reads it (`|| 0`). */
  function StudentAge(p: ClientProfile): int
  {
    GeminiService.IntOr(GeminiService.ProfileAge(p), 0)
  }

  /** The load effect: identity from the adult's or the child's fields (name
      defaults to empty, age to 0, gender to "未知"); a saved audience mode wins
      over the age rule; a saved template wins over the empty one; saved metrics
      win over the course defaults when there are any. */
  function Loaded(p: ClientProfile): (v: PanelView)
    ensures v.age == StudentAge(p) && v.course == p.course
    ensures p.feedbackConfig.Some? && p.feedbackConfig.value.targetMode.Some?
            ==> v.mode == p.feedbackConfig.value.targetMode.value
    ensures !(p.feedbackConfig.Some? && p.feedbackConfig.value.targetMode.Some?) ==> v.mode == ModeForAge(v.age)
    ensures p.feedbackConfig.Some? && p.feedbackConfig.value.customMetrics.Some?
            && p.feedbackConfig.value.customMetrics.value != []
            ==> v.metrics == p.feedbackConfig.value.customMetrics.value
    ensures !(p.feedbackConfig.Some? && p.feedbackConfig.value.customMetrics.Some?
              && p.feedbackConfig.value.customMetrics.value != [])
            ==> v.metrics == Constants.DefaultMetrics(p.course)
    ensures v.gender != ""
  {
    var adult := GeminiService.ProfileIsAdult(p);
    var name := if adult then p.name else GeminiService.StrOr(p.childName, "");
    var age := StudentAge(p);
    var gender := GeminiService.StrOr(GeminiService.ProfileGender(p), "未知");
    var cfg := p.feedbackConfig;
    var mode := if cfg.Some? && cfg.value.targetMode.Some? then cfg.value.targetMode.value else ModeForAge(age);
    var template := if cfg.Some? && cfg.value.previousFeedbackTemplate.Some? then cfg.value.previousFeedbackTemplate.value else "";
    var metrics := if cfg.Some? && cfg.value.customMetrics.Some? && cfg.value.customMetrics.value != []
                   then cfg.value.customMetrics.value else Constants.DefaultMetrics(p.course);
    PanelView(name, age, gender, mode, p.course, template, metrics)
  }

  /** The age effect after a load: it runs when the shown age differs from the one
      shown before, and then, for a positive age, the age rule replaces the mode. */
  function AfterAgeEffect(previousAge: int, v: PanelView): (r: PanelView)
    ensures r.(mode := v.mode) == v
    ensures v.age != previousAge && v.age > 0 ==> r.mode == ModeForAge(v.age)
    ensures !(v.age != previousAge && v.age > 0) ==> r == v
  {
    if v.age != previousAge && v.age > 0 then v.(mode := ModeForAge(v.age)) else v
  }

  /** A saved audience mode is shown after a load only when the age effect does not
      fire; when the student's age is positive and differs from the age shown
      before, the age rule decides instead of the saved mode. */
  lemma SavedModeAndAgeEffect(p: ClientProfile, previousAge: int)
    requires p.feedbackConfig.Some? && p.feedbackConfig.value.targetMode.Some?
    ensures var v := AfterAgeEffect(previousAge, Loaded(p));
      && (StudentAge(p) == previousAge || StudentAge(p) <= 0 ==> v.mode == p.feedbackConfig.value.targetMode.value)
      && (StudentAge(p) != previousAge && StudentAge(p) > 0 ==> v.mode == ModeForAge(StudentAge(p)))
  {
  }

  /** The identity the service puts in the prompt, given the panel's fields as
      overrides, is the panel's identity, except that an empty name becomes "学员"
      and an age of 0 falls back to the profile's (which is then 0 as well). */
  lemma ServiceUsesPanelIdentity(p: ClientProfile)
    ensures var v := Loaded(p);
      var id := GeminiService.ResolveIdentity(p, Some(v.name), Some(v.age), Some(v.gender));
      && id.gender == v.gender
      && id.age == v.age
      && (v.name != "" ==> id.name == v.name)
      && (v.name == "" ==> id.name == "学员")
  {
  }

  // ---- metrics ---------------------------------------------------------------------

  datatype MetricField = NameField | ValueField

  /** `handleMetricChange(i, field, value)`: the field of metric `i` takes the value;
      an index out of range throws before anything is set, so nothing changes. */
  function SetMetricField(ms: seq<PerformanceMetric>, i: int, f: MetricField, x: string): (r: seq<PerformanceMetric>)
    ensures |r| == |ms|
    ensures forall j | 0 <= j < |ms| && j != i :: r[j] == ms[j]
    ensures 0 <= i < |ms| && f == NameField ==> r[i] == ms[i].(name := x)
    ensures 0 <= i < |ms| && f == ValueField ==> r[i] == ms[i].(value := x)
  {
    if 0 <= i < |ms| then
      ms[i := match f case NameField => ms[i].(name := x) case ValueField => ms[i].(value := x)]
    else ms
  }

  /** `applyScale(i, key)`: metric `i` takes the scale as its options and the
      scale's first entry as its value; out of range nothing changes. */
  function ApplyScaleTo(ms: seq<PerformanceMetric>, i: int, k: Constants.ScaleKey): (r: seq<PerformanceMetric>)
    ensures |r| == |ms|
    ensures forall j | 0 <= j < |ms| && j != i :: r[j] == ms[j]
    ensures 0 <= i < |ms| ==> r[i].options == Some(Constants.RatingScale(k)) && r[i].value == Constants.RatingScale(k)[0]
    ensures 0 <= i < |ms| ==> r[i].id == ms[i].id && r[i].name == ms[i].name
  {
    if 0 <= i < |ms| then
      var scale := Constants.RatingScale(k);
      ms[i := ms[i].(options := Some(scale), value := scale[0])]
    else ms
  }

  /** `addMetric()`: one metric with the given id, no name, no value, no options. */
  function NewMetric(id: string): PerformanceMetric
  {
    PerformanceMetric(id, "", "", None)
  }

  predicate AllWellFormed(ms: seq<PerformanceMetric>)
  {
    forall j | 0 <= j < |ms| :: Constants.MetricWellFormed(ms[j])
  }

  /** After a scale is applied, the metric's value is one of its options. */
  lemma ApplyScaleWellFormed(ms: seq<PerformanceMetric>, i: int, k: Constants.ScaleKey)
    requires 0 <= i < |ms|
    ensures Constants.MetricWellFormed(ApplyScaleTo(ms, i, k)[i])
  {
  }

  /** The edits the panel offers keep every metric's value among its options: a
      value is picked from the options when there are any, a new metric has none,
      and removal and scales keep the others as they are. */
  lemma EditsKeepMetricsWellFormed(ms: seq<PerformanceMetric>, i: int, f: MetricField, x: string,
                                   k: Constants.ScaleKey, id: string)
    requires AllWellFormed(ms)
    requires f == ValueField && 0 <= i < |ms| && ms[i].options.Some? ==> x in ms[i].options.value
    ensures AllWellFormed(SetMetricField(ms, i, f, x))
    ensures AllWellFormed(ApplyScaleTo(ms, i, k))
    ensures AllWellFormed(ms + [NewMetric(id)])
    ensures AllWellFormed(App.RemoveAt(ms, i))
  {
    var r := App.RemoveAt(ms, i);
    if 0 <= i < |ms| {
      assert forall j | 0 <= j < |r| :: r[j] == ms[j] || r[j] == ms[j + 1];
    }
  }

  /** The default metrics a panel starts with are well formed. */
  lemma DefaultsWellFormed(c: CourseType)
    ensures AllWellFormed(Constants.DefaultMetrics(c))
  {
    Constants.DefaultMetricsWellFormed(c);
  }

  // ---- history summaries and the saved configuration ------------------------------------

  const EmptyContentMessage := "请输入本节课的学习内容"
  const GenerateFailedMessage := "生成失败，请重试"

  /** `[date] 课后反馈 (name): summary`. */
  function GeneratedSummary(dateStr: string, studentName: string, fr: FeedbackResult): string
  {
    "[" + dateStr + "] 课后反馈 (" + studentName + "): " + fr.learningContentSummary
  }

  /** `\n[date] 发送反馈:\n text`: starts with a line break. */
  function SentFeedbackSummary(dateStr: string, text: string): string
  {
    "\n[" + dateStr + "] 发送反馈:\n" + text
  }

  /** Saving a sent feedback to a non-empty history leaves one empty line, then the
      dated heading line, then the lines of the text. */
  lemma SentFeedbackLines(history: string, dateStr: string, text: string)
    requires history != "" && '\n' !in dateStr
    ensures Strings.Split(App.AppendHistory(history, SentFeedbackSummary(dateStr, text)), '\n')
      == Strings.Split(history, '\n') + ["", "[" + dateStr + "] 发送反馈:"] + Strings.Split(text, '\n')
  {
    SentFeedbackSummaryLines(dateStr, text);
  }

  /** The sent-feedback summary alone splits into an empty line, the heading and
      the lines of the text. */
  lemma SentFeedbackSummaryLines(dateStr: string, text: string)
    requires '\n' !in dateStr
    ensures Strings.Split(SentFeedbackSummary(dateStr, text), '\n')
      == ["", "[" + dateStr + "] 发送反馈:"] + Strings.Split(text, '\n')
  {
    var heading := "[" + dateStr + "] 发送反馈:";
    assert '\n' !in heading;
    Strings.SplitWithoutSeparator(heading, '\n');
    Strings.SplitAppend(heading, text, '\n');
    Strings.SplitAppend([], heading + ['\n'] + text, '\n');
    assert SentFeedbackSummary(dateStr, text) == [] + ['\n'] + (heading + ['\n'] + text);
    assert Strings.Split([], '\n') == [[]];
  }

  /** `handleSaveConfig()`'s update: the identity goes to the adult's fields or to
      the child's, the course is written, and the configuration is replaced as a
      whole. */
  function ConfigPatch(p: ClientProfile, v: PanelView): (u: Patch)
    ensures u.course == Some(v.course)
    ensures u.feedbackConfig == Some(Some(FeedbackConfig(Some(v.mode), Some(v.template), Some(v.metrics))))
    ensures GeminiService.ProfileIsAdult(p) ==>
      u.name == Some(v.name) && u.age == Some(Some(v.age)) && u.gender == Some(Some(v.gender))
      && u.childName.None? && u.childAge.None? && u.childGender.None?
    ensures !GeminiService.ProfileIsAdult(p) ==>
      u.childName == Some(Some(v.name)) && u.childAge == Some(Some(v.age)) && u.childGender == Some(Some(v.gender))
      && u.name.None? && u.age.None? && u.gender.None?
    ensures u.(name := None, age := None, gender := None, childName := None, childAge := None,
               childGender := None, course := None, feedbackConfig := None) == EmptyPatch
  {
    var cfg := EmptyPatch.(course := Some(v.course),
                           feedbackConfig := Some(Some(FeedbackConfig(Some(v.mode), Some(v.template), Some(v.metrics)))));
    if GeminiService.ProfileIsAdult(p) then cfg.(name := Some(v.name), age := Some(Some(v.age)), gender := Some(Some(v.gender)))
    else cfg.(childName := Some(Some(v.name)), childAge := Some(Some(v.age)), childGender := Some(Some(v.gender)))
  }

  /** Saving the configuration and loading the profile again restores the panel:
      identity, mode, template and course come back, the metrics too unless the
      list was empty (the course defaults are loaded then), and an empty gender
      reads back as "未知". The profile must stay on the same side of adulthood,
      which a holder's age edit could otherwise change. */
  lemma SaveConfigRoundTrip(p: ClientProfile, v: PanelView)
    requires p.clientType == AdultStudent || !GeminiService.ProfileIsAdult(p) || v.age >= 18
    ensures var w := Loaded(App.Merge(p, ConfigPatch(p, v)));
      && w.name == v.name && w.age == v.age && w.mode == v.mode && w.template == v.template
      && w.course == v.course
      && w.gender == (if v.gender == "" then "未知" else v.gender)
      && w.metrics == (if v.metrics == [] then Constants.DefaultMetrics(v.course) else v.metrics)
  {
    var q := App.Merge(p, ConfigPatch(p, v));
    assert GeminiService.ProfileIsAdult(q) == GeminiService.ProfileIsAdult(p);
  }

  // ---- the panel ----------------------------------------------------------------------------

  /** The panel's state. `profileId` is the id of the profile last loaded, which is
      what the load effect depends on. */
  class FeedbackPanel {
    var profileId: string
    var studentName: string
    var studentAge: int
    var studentGender: string
    var targetMode: TargetAudienceMode
    var course: CourseType
    var template: string
    var metrics: seq<PerformanceMetric>
    var learningContent: string
    var homework: string
    var isGenerating: bool
    var result: Option<FeedbackResult>
    var error: Option<string>

    function View(): PanelView
      reads this
    {
      PanelView(studentName, studentAge, studentGender, targetMode, course, template, metrics)
    }

    /** Mounting for a profile: the initial age is 0, then the load effect, then the
        age effect. */
    constructor(p: ClientProfile)
      ensures View() == AfterAgeEffect(0, Loaded(p)) && profileId == p.id
      ensures learningContent == "" && homework == "" && !isGenerating && result.None? && error.None?
    {
      profileId := p.id;
      var v := AfterAgeEffect(0, Loaded(p));
      studentName, studentAge, studentGender := v.name, v.age, v.gender;
      targetMode, course, template, metrics := v.mode, v.course, v.template, v.metrics;
      learningContent, homework := "", "";
      isGenerating, result, error := false, None, None;
    }

    /** The panel receives a profile: when its id differs from the last one, the
        load effect runs and then, if the shown age changed, the age effect. The
        lesson text, the result and the error are kept. */
    method ProfileChanged(p: ClientProfile)
      modifies this
      ensures p.id == old(profileId) ==> View() == old(View())
      ensures p.id != old(profileId) ==> View() == AfterAgeEffect(old(studentAge), Loaded(p))
      ensures profileId == p.id
      ensures learningContent == old(learningContent) && result == old(result) && error == old(error)
      ensures homework == old(homework) && isGenerating == old(isGenerating)
    {
      if p.id != profileId {
        Reload(p);
      }
    }

    /** The load effect followed by the age effect. */
    method Reload(p: ClientProfile)
      modifies this`profileId, this`studentName, this`studentAge, this`studentGender,
               this`targetMode, this`course, this`template, this`metrics
      ensures View() == AfterAgeEffect(old(studentAge), Loaded(p))
      ensures profileId == p.id
    {
      var v := AfterAgeEffect(studentAge, Loaded(p));
      profileId, studentName, studentAge, studentGender, targetMode, course, template, metrics :=
        p.id, v.name, v.age, v.gender, v.mode, v.course, v.template, v.metrics;
    }

    /** Editing the age field: a different positive age sets the mode by the age rule. */
    method SetStudentAge(age: int)
      modifies this`studentAge, this`targetMode
      ensures studentAge == age
      ensures age != old(studentAge) && age > 0 ==> targetMode == ModeForAge(age)
      ensures !(age != old(studentAge) && age > 0) ==> targetMode == old(targetMode)
    {
      var previous := studentAge;
      studentAge := age;
      if age != previous && age > 0 {
        targetMode := ModeForAge(age);
      }
    }

    method MetricChange(i: int, f: MetricField, x: string)
      modifies this`metrics
      ensures metrics == SetMetricField(old(metrics), i, f, x)
    {
      metrics := SetMetricField(metrics, i, f, x);
    }

    method AddMetric(id: string)
      modifies this`metrics
      ensures metrics == old(metrics) + [NewMetric(id)]
    {
      metrics := metrics + [NewMetric(id)];
    }

    method RemoveMetric(i: int)
      modifies this`metrics
      ensures metrics == App.RemoveAt(old(metrics), i)
    {
      metrics := App.RemoveAt(metrics, i);
    }

    method ApplyScale(i: int, k: Constants.ScaleKey)
      modifies this`metrics
      ensures metrics == ApplyScaleTo(old(metrics), i, k)
    {
      metrics := ApplyScaleTo(metrics, i, k);
    }

    /** `handleGenerate()`, given the service's answer and the date text. Blank
        lesson content is refused before any call. A feedback with at least one
        variation adds a dated line to the selected profile's history. */
    method Generate(reply: GatewayResult<FeedbackResult>, dateStr: string, store: App.ProfileStore)
      modifies this, store
      ensures View() == old(View()) && learningContent == old(learningContent)
      ensures homework == old(homework) && profileId == old(profileId)
      ensures Strings.IsBlank(learningContent) ==>
        error == Some(EmptyContentMessage) && store.State() == old(store.State())
        && result == old(result) && isGenerating == old(isGenerating)
      ensures !Strings.IsBlank(learningContent) ==> !isGenerating
      ensures !Strings.IsBlank(learningContent) && reply.Failure? ==>
        error == Some(if reply.message != "" then reply.message else GenerateFailedMessage)
        && result == old(result) && store.State() == old(store.State())
      ensures !Strings.IsBlank(learningContent) && reply.Reply? ==>
        result == Some(reply.value) && error.None?
        && store.State() == (if |reply.value.variations| > 0
                             then App.SaveToHistoryStep(old(store.State()), GeneratedSummary(dateStr, studentName, reply.value))
                             else old(store.State()))
    {
      if Strings.IsBlank(learningContent) {
        error := Some(EmptyContentMessage);
        return;
      }
      isGenerating := true;
      error := None;
      match reply {
        case Reply(fr) =>
          result := Some(fr);
          if |fr.variations| > 0 {
            store.SaveToHistory(GeneratedSummary(dateStr, studentName, fr));
          }
        case Failure(msg) =>
          error := Some(if msg != "" then msg else GenerateFailedMessage);
      }
      isGenerating := false;
    }

    /** `handleSaveFeedback(text)`: the sent text goes to the history, then the list
        is saved. */
    method SaveFeedback(text: string, dateStr: string, store: App.ProfileStore)
      modifies store
      ensures store.State() == App.SaveStep(App.SaveToHistoryStep(old(store.State()), SentFeedbackSummary(dateStr, text)))
    {
      store.SaveToHistory(SentFeedbackSummary(dateStr, text));
      store.SaveData();
    }

    /** `handleSaveConfig()`: the configuration patch goes to the selected profile
        (the one the panel shows), then the list is saved. */
    method SaveConfig(store: App.ProfileStore)
      modifies store
      ensures old(store.Selected()).None? ==> store.State() == old(store.State())
      ensures old(store.Selected()).Some? ==>
        store.State() == App.UpdateThenSave(old(store.State()), ConfigPatch(old(store.Selected()).value, View()))
    {
      var current := store.Selected();
      if current.None? {
        return;
      }
      store.UpdateSelected(ConfigPatch(current.value, View()));
      store.SaveData();
    }
  }
}
