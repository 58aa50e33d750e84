/** The records and enumerations of the tutoring CRM (types.ts).
    Optional TypeScript fields (`age?: number`) become `Option` values: `None` is
    `undefined`, which is not the same as an empty string or a zero. */
module Types {

  datatype Option<+T> = None | Some(value: T)

  /** A tag list used as a set: no label occurs twice. */
  predicate NoDup<T(==)>(s: seq<T>)
  {
    forall i, j | 0 <= i < j < |s| :: s[i] != s[j]
  }

  /** What a call into the hosted model gives back: a parsed value, or the message
      of the error it threw (transport failure, empty or unparseable answer). */
  datatype GatewayResult<+T> = Reply(value: T) | Failure(message: string)

  datatype ClientType = Parent | AdultStudent

  datatype ClientStatus = Regular | Trial | Lead | Churned

  datatype CourseType = Piano | Vocal | Guitar | Ukulele | PianoPractice | PianoSinging

  datatype PackageLevel = Standard | Premium | Advanced | Supreme

  datatype TargetAudienceMode = ChildMode | TeenMode | AdultMode

  /** Who wrote the message being analysed: the guardian/student, or the staff. */
  datatype InputPerspective = FromParent | FromTeacher

  /** The string value of each enumeration member, as stored in a profile and
      shown in the interface. */
  function ClientTypeLabel(t: ClientType): string
  {
    match t
    case Parent => "家长"
    case AdultStudent => "成人学员"
  }

  function StatusLabel(s: ClientStatus): string
  {
    match s
    case Regular => "正课学员"
    case Trial => "试听学员"
    case Lead => "咨询学员"
    case Churned => "流失学员"
  }

  function CourseLabel(c: CourseType): string
  {
    match c
    case Piano => "钢琴"
    case Vocal => "声乐"
    case Guitar => "吉他"
    case Ukulele => "尤克里里"
    case PianoPractice => "钢琴陪练"
    case PianoSinging => "钢琴弹唱"
  }

  function PackageLabel(p: PackageLevel): string
  {
    match p
    case Standard => "标准包 (16课时)"
    case Premium => "优享包 (26+2课时)"
    case Advanced => "进阶包 (30+2课时)"
    case Supreme => "尊享包 (42+6课时)"
  }

  datatype PerformanceMetric = PerformanceMetric(
    id: string,
    name: string,
    value: string,
    options: Option<seq<string>>)

  datatype FeedbackConfig = FeedbackConfig(
    targetMode: Option<TargetAudienceMode>,
    previousFeedbackTemplate: Option<string>,
    customMetrics: Option<seq<PerformanceMetric>>)

  datatype MbtiAnalysis = MbtiAnalysis(
    mbtiType: string,
    description: string,
    cognitiveStyle: string,
    teachingAdvice: string)

  datatype ChildInteractionGuide = ChildInteractionGuide(
    personalityAnalysis: string,
    mbti: Option<MbtiAnalysis>,
    rewardMechanisms: seq<string>,
    toyTypes: seq<string>,
    dos: seq<string>,
    donts: seq<string>,
    winningStrategy: string)

  datatype PersonalityAnalysisResult = PersonalityAnalysisResult(
    summary: string,
    tags: seq<string>,
    communicationStyle: string,
    mbti: Option<MbtiAnalysis>,
    dos: seq<string>,
    donts: seq<string>,
    closingStrategy: string,
    childInteractionGuide: Option<ChildInteractionGuide>)

  datatype ClientProfile = ClientProfile(
    id: string,
    name: string,
    clientType: ClientType,
    status: ClientStatus,
    age: Option<int>,
    gender: Option<string>,
    occupation: Option<string>,
    childName: Option<string>,
    childAge: Option<int>,
    childGender: Option<string>,
    address: string,
    course: CourseType,
    addDate: int,
    currentPackage: PackageLevel,
    remainingLessons: int,
    trialRemainingLessons: Option<int>,
    otherPackages: Option<string>,
    weeklyFrequency: Option<string>,
    profileScreenshots: Option<seq<string>>,
    personalityNotes: Option<string>,
    personalityAnalysis: Option<PersonalityAnalysisResult>,
    studentPersonality: seq<string>,
    learningState: seq<string>,
    parentFocus: seq<string>,
    otherInfo: string,
    historySummary: string,
    feedbackConfig: Option<FeedbackConfig>)

  /** `Partial<ClientProfile>`: `None` means the key is absent from the update
      object. For an optional profile field the slot holds an `Option` itself, so
      that a key present with the value `undefined` (`Some(None)`) can be told
      apart from an absent key. */
  datatype Patch = Patch(
    id: Option<string>,
    name: Option<string>,
    clientType: Option<ClientType>,
    status: Option<ClientStatus>,
    age: Option<Option<int>>,
    gender: Option<Option<string>>,
    occupation: Option<Option<string>>,
    childName: Option<Option<string>>,
    childAge: Option<Option<int>>,
    childGender: Option<Option<string>>,
    address: Option<string>,
    course: Option<CourseType>,
    addDate: Option<int>,
    currentPackage: Option<PackageLevel>,
    remainingLessons: Option<int>,
    trialRemainingLessons: Option<Option<int>>,
    otherPackages: Option<Option<string>>,
    weeklyFrequency: Option<Option<string>>,
    profileScreenshots: Option<Option<seq<string>>>,
    personalityNotes: Option<Option<string>>,
    personalityAnalysis: Option<Option<PersonalityAnalysisResult>>,
    studentPersonality: Option<seq<string>>,
    learningState: Option<seq<string>>,
    parentFocus: Option<seq<string>>,
    otherInfo: Option<string>,
    historySummary: Option<string>,
    feedbackConfig: Option<Option<FeedbackConfig>>)

  /** The update object `{}`. */
  const EmptyPatch := Patch(None, None, None, None, None, None, None, None, None,
                            None, None, None, None, None, None, None, None, None,
                            None, None, None, None, None, None, None, None, None)

  /** The spread of a whole profile, `{ ...q }`: every key present. */
  function FullPatch(q: ClientProfile): Patch
  {
    Patch(Some(q.id), Some(q.name), Some(q.clientType), Some(q.status), Some(q.age),
          Some(q.gender), Some(q.occupation), Some(q.childName), Some(q.childAge),
          Some(q.childGender), Some(q.address), Some(q.course), Some(q.addDate),
          Some(q.currentPackage), Some(q.remainingLessons), Some(q.trialRemainingLessons),
          Some(q.otherPackages), Some(q.weeklyFrequency), Some(q.profileScreenshots),
          Some(q.personalityNotes), Some(q.personalityAnalysis), Some(q.studentPersonality),
          Some(q.learningState), Some(q.parentFocus), Some(q.otherInfo),
          Some(q.historySummary), Some(q.feedbackConfig))
  }

  /** Suggested tag additions returned by the interaction analysis
      (`profileUpdateSuggestion`, restricted to the keys of its response schema). */
  datatype ProfileUpdateSuggestion = ProfileUpdateSuggestion(
    learningState: Option<seq<string>>,
    parentFocus: Option<seq<string>>,
    studentPersonality: Option<seq<string>>,
    otherInfo: Option<string>)

  datatype Strategy = Strategy(title: string, content: string, principle: string)

  datatype ReplySuggestions = ReplySuggestions(detailed: string, brief: string)

  datatype AnalysisResult = AnalysisResult(
    emotionalTone: string,
    keyConcerns: seq<string>,
    suggestedPackage: Option<PackageLevel>,
    strategies: seq<Strategy>,
    replySuggestions: ReplySuggestions,
    profileUpdateSuggestion: Option<ProfileUpdateSuggestion>,
    interactionSummary: string)

  datatype FeedbackVariation = FeedbackVariation(style: string, content: string)

  datatype FeedbackResult = FeedbackResult(
    learningContentSummary: string,
    variations: seq<FeedbackVariation>)

  datatype ActivityCategory = Festival | Routine

  datatype ActivityStyle = Ritual | Fun | Skill | Stage

  /** A gift or material; the price is kept in cents. */
  datatype InventoryItem = InventoryItem(name: string, price: int)

  datatype ActivityCostConfig = ActivityCostConfig(
    floorPrice: int,
    budgetCapPercent: int,
    preferredStyle: ActivityStyle,
    gifts: seq<InventoryItem>,
    materials: seq<InventoryItem>)

  datatype ContentDesign = ContentDesign(
    highlights: seq<string>,
    parentAppeal: string,
    renewalMechanism: string)

  /** The plan's money figures, in cents; the cost breakdown is not modelled. */
  datatype FinancialAnalysis = FinancialAnalysis(suggestedPrice: int, totalCost: int)

  /** The generated activity plan; the financial part may be missing from a reply. */
  datatype ActivityPlan = ActivityPlan(
    theme: string,
    personaSummary: string,
    smartStrategy: string,
    marketOpportunities: seq<string>,
    successProbability: string,
    financialAnalysis: Option<FinancialAnalysis>,
    contentDesign: ContentDesign,
    privateMessageTemplate: string)

  datatype ChatRole = User | Model

  datatype ActivityChatMessage = ActivityChatMessage(
    role: ChatRole,
    content: string,
    files: seq<string>,
    plan: Option<ActivityPlan>)
}
