/** The constant tables of constants.ts: the four lesson packages, the rating
    scales and their labels, the default performance metrics of each course, and
    the festival and routine activity themes. */
module Constants {
  import opened Types
  import Strings

  /** One lesson package. The unit price is kept in tenths of a yuan (171.4 is 1714). */
  datatype PackageDetails = PackageDetails(
    name: string,
    lessons: nat,
    bonus: nat,
    priceOnSite: nat,
    unitPriceTenths: nat)

  /** `PACKAGE_DATA`. */
  function PackageData(level: PackageLevel): PackageDetails
  {
    match level
    case Standard => PackageDetails("标准包", 16, 0, 2860, 1780)
    case Premium => PackageDetails("优享包", 26, 2, 4800, 1714)
    case Advanced => PackageDetails("进阶包", 30, 2, 5200, 1650)
    case Supreme => PackageDetails("尊享包", 42, 6, 7200, 1500)
  }

  /** Lessons a package gives, bonus lessons included. */
  function TotalLessons(level: PackageLevel): nat
  {
    PackageData(level).lessons + PackageData(level).bonus
  }

  /** The order of the tiers, cheapest first. */
  function TierRank(level: PackageLevel): nat
  {
    match level
    case Standard => 0
    case Premium => 1
    case Advanced => 2
    case Supreme => 3
  }

  /** A higher tier always gives strictly more lessons. */
  lemma TotalLessonsIncreaseWithTier(a: PackageLevel, b: PackageLevel)
    requires TierRank(a) < TierRank(b)
    ensures TotalLessons(a) < TotalLessons(b)
  {
  }

  /** The lesson count written in a package's label: "16", or "26+2" with a bonus. */
  function LessonCountText(d: PackageDetails): string
  {
    Strings.NatToString(d.lessons) + (if d.bonus > 0 then "+" + Strings.NatToString(d.bonus) else "")
  }

  /** Each package's label names the package and exactly its lessons and bonus. */
  lemma PackageLabelMatchesData(level: PackageLevel)
    ensures PackageLabel(level) == PackageData(level).name + " (" + LessonCountText(PackageData(level)) + "课时)"
  {
    PackageCountTexts();
    PackageLabels();
  }

  /** The labels of the packages, given the texts of their lesson counts. */
  lemma PackageLabels()
    ensures PackageLabel(Standard) == PackageData(Standard).name + " (" + "16" + "课时)"
    ensures PackageLabel(Premium) == PackageData(Premium).name + " (" + "26+2" + "课时)"
    ensures PackageLabel(Advanced) == PackageData(Advanced).name + " (" + "30+2" + "课时)"
    ensures PackageLabel(Supreme) == PackageData(Supreme).name + " (" + "42+6" + "课时)"
  {
  }

  /** The lesson count texts of the packages. */
  lemma PackageCountTexts()
    ensures LessonCountText(PackageData(Standard)) == "16"
    ensures LessonCountText(PackageData(Premium)) == "26+2"
    ensures LessonCountText(PackageData(Advanced)) == "30+2"
    ensures LessonCountText(PackageData(Supreme)) == "42+6"
  {
    assert Strings.NatToString(16) == "16" && Strings.NatToString(26) == "26";
    assert Strings.NatToString(30) == "30" && Strings.NatToString(42) == "42";
    assert Strings.NatToString(2) == "2" && Strings.NatToString(6) == "6";
  }

  /** The keys of `RATING_SCALES` (and of `RATING_SCALE_LABELS`, which has the same keys). */
  datatype ScaleKey = GeneralLevel | Mastery | Frequency | Intonation | Rhythm
                    | HandShape | Emotion | Attitude | Homework | Reading

  /** `RATING_SCALES`: every scale has at least one entry, so `options[0]` exists. */
  function RatingScale(k: ScaleKey): (options: seq<string>)
    ensures |options| > 0
  {
    match k
    case GeneralLevel => ["优秀 (S)", "良好 (A)", "合格 (B)", "需加油 (C)"]
    case Mastery => ["完全掌握", "基本掌握", "熟练度不足", "未掌握"]
    case Frequency => ["总是", "经常", "偶尔", "从不"]
    case Intonation => ["音准完美", "基本准确", "偶有跑调", "音准偏差大", "找不到调"]
    case Rhythm => ["节奏精准", "基本稳定", "忽快忽慢", "卡顿严重", "完全错乱"]
    case HandShape => ["手型标准", "较为放松", "偶有折指", "手腕僵硬", "手型塌陷"]
    case Emotion => ["情感充沛", "自然流畅", "略显平淡", "机械生硬"]
    case Attitude => ["非常积极", "配合度高", "注意力分散", "抗拒练习"]
    case Homework => ["高质量完成", "按时完成", "完成度一般", "未完成"]
    case Reading => ["视奏流畅", "读谱较快", "读谱吃力", "不识谱"]
  }

  /** `RATING_SCALE_LABELS`: a display label for every scale key. */
  function RatingScaleLabel(k: ScaleKey): (text: string)
    ensures text != ""
  {
    match k
    case GeneralLevel => "综合评级"
    case Mastery => "掌握程度"
    case Frequency => "频率/频次"
    case Intonation => "音准"
    case Rhythm => "节奏"
    case HandShape => "手型状态"
    case Emotion => "情感表达"
    case Attitude => "课堂态度"
    case Homework => "作业完成"
    case Reading => "识谱能力"
  }

  /** A metric with a fixed list of options holds one of those options. */
  predicate MetricWellFormed(m: PerformanceMetric)
  {
    m.options.Some? ==> m.value in m.options.value
  }

  function Metric(id: string, name: string, value: string, options: seq<string>): PerformanceMetric
  {
    PerformanceMetric(id, name, value, Some(options))
  }

  /** `DEFAULT_PERFORMANCE_METRICS`. */
  function DefaultMetrics(c: CourseType): seq<PerformanceMetric>
  {
    match c
    case Piano => [
      Metric("p1", "手型状态", "较为放松", RatingScale(HandShape)),
      Metric("p2", "识谱能力", "读谱较快", RatingScale(Reading)),
      Metric("p3", "音准控制", "基本准确", RatingScale(Intonation)),
      Metric("p4", "节奏稳定性", "基本稳定", RatingScale(Rhythm)),
      Metric("p5", "音乐表现力", "自然流畅", RatingScale(Emotion)),
      Metric("p6", "练琴态度", "配合度高", RatingScale(Attitude))]
    case Vocal => [
      Metric("v1", "音准音高", "基本准确", RatingScale(Intonation)),
      Metric("v2", "气息支撑", "基本掌握", RatingScale(Mastery)),
      Metric("v3", "咬字吐字", "良好 (A)", RatingScale(GeneralLevel)),
      Metric("v4", "节奏律动", "基本稳定", RatingScale(Rhythm)),
      Metric("v5", "舞台表现", "自然流畅", RatingScale(Emotion))]
    case Guitar => [
      Metric("g1", "左手按弦", "基本掌握", RatingScale(Mastery)),
      Metric("g2", "右手拨弦/扫弦", "基本稳定", RatingScale(Rhythm)),
      Metric("g3", "和弦转换", "熟练度不足", RatingScale(Mastery)),
      Metric("g4", "节奏感", "基本稳定", RatingScale(Rhythm)),
      Metric("g5", "读谱能力", "读谱较快", RatingScale(Reading))]
    case Ukulele => [
      Metric("u1", "扫弦节奏", "轻快", ["富有弹性", "轻快", "准确", "僵硬", "节奏乱"]),
      Metric("u2", "左手按弦", "清晰", ["清晰", "适中", "虚按", "杂音较多"]),
      Metric("u3", "弹唱配合", "基本掌握", RatingScale(Mastery)),
      Metric("u4", "课堂状态", "非常积极", RatingScale(Attitude))]
    case PianoPractice => [
      Metric("pp1", "识谱准确度", "基本准确", RatingScale(Intonation)),
      Metric("pp2", "练习效率", "良好 (A)", RatingScale(GeneralLevel)),
      Metric("pp3", "错音纠正", "基本掌握", RatingScale(Mastery)),
      Metric("pp4", "手型保持", "较为放松", RatingScale(HandShape))]
    case PianoSinging => [
      Metric("ps1", "弹唱协调性", "基本掌握", RatingScale(Mastery)),
      Metric("ps2", "音准", "基本准确", RatingScale(Intonation)),
      Metric("ps3", "伴奏稳定性", "基本稳定", RatingScale(Rhythm)),
      Metric("ps4", "情感投入", "自然流畅", RatingScale(Emotion))]
  }

  /** The metric ids of a list are pairwise distinct. */
  predicate DistinctIds(ms: seq<PerformanceMetric>)
  {
    forall i, j | 0 <= i < j < |ms| :: ms[i].id != ms[j].id
  }

  /** Every metric of the list carries options and holds one of them. */
  predicate AllWithOptions(ms: seq<PerformanceMetric>)
  {
    forall i | 0 <= i < |ms| :: ms[i].options.Some? && MetricWellFormed(ms[i])
  }

  /** Ids of the form prefix + one digit differ when the digits differ. */
  lemma {:induction false} NumberedIdsDistinct(ms: seq<PerformanceMetric>, prefix: string, digits: seq<char>)
    requires |ms| == |digits|
    requires forall i | 0 <= i < |ms| :: ms[i].id == prefix + [digits[i]]
    requires forall i, j | 0 <= i < j < |digits| :: digits[i] != digits[j]
    ensures DistinctIds(ms)
  {
    forall i, j | 0 <= i < j < |ms|
      ensures ms[i].id != ms[j].id
    {
      assert ms[i].id[|prefix|] == digits[i];
      assert ms[j].id[|prefix|] == digits[j];
    }
  }

  /** Every course has a non-empty default list, every default value is one of its
      metric's options, and the metric ids of a course are pairwise distinct. */
  lemma DefaultMetricsWellFormed(c: CourseType)
    ensures |DefaultMetrics(c)| > 0
    ensures AllWithOptions(DefaultMetrics(c))
    ensures DistinctIds(DefaultMetrics(c))
  {
    DefaultValuesAmongOptions(c);
    DefaultIdsDistinct(c);
  }

  /** Every default value is one of its metric's options. */
  lemma DefaultValuesAmongOptions(c: CourseType)
    ensures AllWithOptions(DefaultMetrics(c))
  {
  }

  /** The default metric ids of a course are pairwise distinct: each is the
      course's prefix followed by the metric's number. */
  lemma DefaultIdsDistinct(c: CourseType)
    ensures DistinctIds(DefaultMetrics(c))
  {
    match c
    case Piano => PianoIdsDistinct();
    case Vocal => VocalIdsDistinct();
    case Guitar => GuitarIdsDistinct();
    case Ukulele => UkuleleIdsDistinct();
    case PianoPractice => PianoPracticeIdsDistinct();
    case PianoSinging => PianoSingingIdsDistinct();
  }

  lemma PianoIdsDistinct()
    ensures DistinctIds(DefaultMetrics(Piano))
  {
    NumberedIdsDistinct(DefaultMetrics(Piano), "p", "123456");
  }

  lemma VocalIdsDistinct()
    ensures DistinctIds(DefaultMetrics(Vocal))
  {
    NumberedIdsDistinct(DefaultMetrics(Vocal), "v", "12345");
  }

  lemma GuitarIdsDistinct()
    ensures DistinctIds(DefaultMetrics(Guitar))
  {
    NumberedIdsDistinct(DefaultMetrics(Guitar), "g", "12345");
  }

  lemma UkuleleIdsDistinct()
    ensures DistinctIds(DefaultMetrics(Ukulele))
  {
    NumberedIdsDistinct(DefaultMetrics(Ukulele), "u", "1234");
  }

  lemma PianoPracticeIdsDistinct()
    ensures DistinctIds(DefaultMetrics(PianoPractice))
  {
    NumberedIdsDistinct(DefaultMetrics(PianoPractice), "pp", "1234");
  }

  lemma PianoSingingIdsDistinct()
    ensures DistinctIds(DefaultMetrics(PianoSinging))
  {
    NumberedIdsDistinct(DefaultMetrics(PianoSinging), "ps", "1234");
  }

  /** `FESTIVALS`. */
  const Festivals: seq<string> := [
    "春节", "元宵节", "妇女节", "母亲节", "儿童节", "父亲节", "端午节",
    "教师节", "中秋节", "国庆节", "万圣节", "感恩节", "圣诞节", "元旦"]

  /** `ROUTINE_THEMES`. */
  const RoutineThemes: seq<string> := [
    "月度生日会", "季度汇演", "开学典礼", "结课仪式", "家长开放日",
    "户外研学", "老带新推荐礼", "续费大转盘", "考级模拟考", "大师班"]

  /** Both theme lists are non-empty, so their first entry exists. */
  lemma ThemeListsNonEmpty()
    ensures |Festivals| > 0 && |RoutineThemes| > 0
  {
  }
}
