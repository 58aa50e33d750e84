/** components/ActivityPlannerModal.tsx: the dialog that plans one activity for one
    profile. It holds a category, a theme of that category, the last generated plan
    and an error, and hands a two-line summary of a plan to the profile's history
    before it closes. */
module ActivityPlannerModal {
  import opened Types
  import Strings
  import Constants

  /** The category's value as it appears in the request. */
  function CategoryCode(c: ActivityCategory): string
  {
    match c
    case Festival => "FESTIVAL"
    case Routine => "ROUTINE"
  }

  /** The themes offered for a category. */
  function Themes(c: ActivityCategory): (ts: seq<string>)
    ensures |ts| > 0
  {
    match c
    case Festival => Constants.Festivals
    case Routine => Constants.RoutineThemes
  }

  const GenerateFailedMessage := "策划生成失败，请重试"

  /** The instructions sent with the profile: `活动类别: <category>, 主题: <theme>`. */
  function Instructions(c: ActivityCategory, theme: string): string
  {
    "活动类别: " + CategoryCode(c) + ", 主题: " + theme
  }

  /** Different categories or themes give different instructions, so the request
      always names the choice that was made. */
  lemma InstructionsDetermineChoice(c1: ActivityCategory, t1: string, c2: ActivityCategory, t2: string)
    requires Instructions(c1, t1) == Instructions(c2, t2)
    ensures c1 == c2 && t1 == t2
  {
    var p := "活动类别: ";
    assert Instructions(c1, t1) == p + CategoryCode(c1) + ", 主题: " + t1;
    if c1 != c2 {
      CharAfterRoutine(c1, t1);
      CharAfterRoutine(c2, t2);
      assert false;
    }
    assert t1 == Instructions(c1, t1)[|p + CategoryCode(c1) + ", 主题: "|..];
  }

  /** The character where "ROUTINE" ends tells the two categories apart. */
  lemma CharAfterRoutine(c: ActivityCategory, theme: string)
    ensures Instructions(c, theme)[|"活动类别: "| + 7] == if c == Festival then 'L' else ','
  {
  }

  /** `[date] 活动策划: <theme>\n方案: <renewal mechanism>`. */
  function SaveSummary(dateStr: string, plan: ActivityPlan): string
  {
    "[" + dateStr + "] 活动策划: " + plan.theme + "\n方案: " + plan.contentDesign.renewalMechanism
  }

  /** The saved summary is two history lines: the dated theme and the renewal hook. */
  lemma SaveSummaryLines(dateStr: string, plan: ActivityPlan)
    requires '\n' !in dateStr && '\n' !in plan.theme && '\n' !in plan.contentDesign.renewalMechanism
    ensures Strings.Split(SaveSummary(dateStr, plan), '\n') ==
      ["[" + dateStr + "] 活动策划: " + plan.theme, "方案: " + plan.contentDesign.renewalMechanism]
  {
    var a := "[" + dateStr + "] 活动策划: " + plan.theme;
    var b := "方案: " + plan.contentDesign.renewalMechanism;
    assert '\n' !in a && '\n' !in b;
    assert SaveSummary(dateStr, plan) == a + ['\n'] + b;
    Strings.SplitAppend(a, b, '\n');
    Strings.SplitWithoutSeparator(a, '\n');
    Strings.SplitWithoutSeparator(b, '\n');
  }

  /** The dialog's state. */
  class PlannerDialog {
    var category: ActivityCategory
    var selectedTheme: string
    var isGenerating: bool
    var plan: Option<ActivityPlan>
    var error: Option<string>
    var closed: bool

    /** The chosen theme belongs to the chosen category. */
    predicate Valid()
      reads this
    {
      selectedTheme in Themes(category)
    }

    /** Opens on the first festival, with no plan and no error. */
    constructor()
      ensures Valid()
      ensures category == Festival && selectedTheme == Constants.Festivals[0]
      ensures !isGenerating && plan.None? && error.None? && !closed
    {
      category := Festival;
      selectedTheme := Constants.Festivals[0];
      isGenerating := false;
      plan := None;
      error := None;
      closed := false;
    }

    /** `handleCategoryChange(cat)`: the first theme of the category, and no plan. */
    method CategoryChange(c: ActivityCategory)
      modifies this`category, this`selectedTheme, this`plan
      ensures Valid()
      ensures category == c && selectedTheme == Themes(c)[0] && plan.None?
    {
      category := c;
      selectedTheme := Themes(c)[0];
      plan := None;
    }

    /** Picking one of the category's themes. */
    method SelectTheme(theme: string)
      requires theme in Themes(category)
      modifies this`selectedTheme
      ensures Valid() && selectedTheme == theme
    {
      selectedTheme := theme;
    }

    /** `handleGenerate()`, given the planner's answer: the request is the
        instructions for the current choice, a theme of the chosen category; an
        answer replaces the plan, a failure keeps it and shows the fixed message. */
    method Generate(reply: GatewayResult<ActivityPlan>) returns (request: string)
      requires Valid()
      modifies this`isGenerating, this`plan, this`error
      ensures Valid()
      ensures request == Instructions(category, selectedTheme)
      ensures !isGenerating
      ensures reply.Reply? ==> plan == Some(reply.value) && error.None?
      ensures reply.Failure? ==> plan == old(plan) && error == Some(GenerateFailedMessage)
    {
      isGenerating := true;
      error := None;
      request := Instructions(category, selectedTheme);
      match reply {
        case Reply(p) => plan := Some(p);
        case Failure(_) => error := Some(GenerateFailedMessage);
      }
      isGenerating := false;
    }

    /** `handleSave()`: with a plan, its summary is handed over once and the dialog
        closes; without one nothing happens. */
    method Save(dateStr: string) returns (summary: Option<string>)
      modifies this`closed
      ensures plan.None? ==> summary.None? && closed == old(closed)
      ensures plan.Some? ==> summary == Some(SaveSummary(dateStr, plan.value)) && closed
    {
      if plan.None? {
        return None;
      }
      summary := Some(SaveSummary(dateStr, plan.value));
      closed := true;
    }
  }
}
