/** components/ActivityPlanner.tsx: the gift and material inventories an activity
    plan may draw on, edited through two name/price inputs, and the "save the last
    plan" action of the planning chat. Money is kept in cents. */
module ActivityPlanner {
  import opened Types
  import Strings
  import App

  // ---- money as text ------------------------------------------------------------------

  /** The two digits of the cents part of an amount. */
  function CentsDigits(cents: int): (d: string)
    ensures |d| == 2 && Strings.IsDigit(d[0]) && Strings.IsDigit(d[1])
  {
    var f := (if cents < 0 then -cents else cents) % 100;
    [Strings.DigitChar(f / 10), Strings.DigitChar(f % 10)]
  }

  /** `amount.toFixed(2)` for an amount in cents. */
  function FixedTwo(cents: int): (t: string)
    ensures |t| >= 4 && t[|t| - 3] == '.'
    ensures Strings.IsDigit(t[|t| - 2]) && Strings.IsDigit(t[|t| - 1])
  {
    var a := if cents < 0 then -cents else cents;
    (if cents < 0 then "-" else "") + Strings.NatToString(a / 100) + "." + CentsDigits(cents)
  }

  /** `body` is digits, a point and two more digits, which read as one decimal
      number without the point give `a`. */
  predicate ReadsAsCents(body: string, a: nat)
  {
    && |body| >= 4 && body[|body| - 3] == '.'
    && (forall i | 0 <= i < |body| && i != |body| - 3 :: Strings.IsDigit(body[i]))
    && Strings.DigitsValue(body[..|body| - 3] + body[|body| - 2..]) == a
  }

  /** `t` is a minus sign exactly for a negative amount, then the unsigned text of
      the amount's magnitude. */
  predicate SignedReadsAsCents(t: string, cents: int)
  {
    && |t| > 0 && (t[0] == '-' <==> cents < 0)
    && ReadsAsCents(if cents < 0 then t[1..] else t, if cents < 0 then -cents else cents)
  }

  /** The text of `toFixed(2)` reads back as the amount in cents: `FixedTwo` and
      reading the text back are inverse. */
  lemma FixedTwoReadsBack(cents: int)
    ensures SignedReadsAsCents(FixedTwo(cents), cents)
  {
    var a := if cents < 0 then -cents else cents;
    var body := Strings.NatToString(a / 100) + "." + CentsDigits(cents);
    SignedFixedTwo(cents, a, body, FixedTwo(cents));
  }

  /** The sign goes in front of the unsigned text. */
  lemma SignedFixedTwo(cents: int, a: nat, body: string, t: string)
    requires a == if cents < 0 then -cents else cents
    requires body == Strings.NatToString(a / 100) + "." + CentsDigits(cents)
    requires t == (if cents < 0 then "-" else "") + body
    ensures SignedReadsAsCents(t, cents)
  {
    assert CentsDigits(cents) == CentsDigits(a);
    UnsignedFixedTwo(a);
    assert Strings.IsDigit(body[0]) by { assert Strings.IsDigit(Strings.NatToString(a / 100)[0]); }
    assert cents < 0 ==> t[1..] == body;
    assert cents >= 0 ==> t == body;
  }

  /** The unsigned part of `toFixed(2)` reads back as the amount in cents. */
  lemma UnsignedFixedTwo(a: nat)
    ensures ReadsAsCents(Strings.NatToString(a / 100) + "." + CentsDigits(a), a)
  {
    var w := Strings.NatToString(a / 100);
    var d := CentsDigits(a);
    var body := w + "." + d;
    assert forall i | 0 <= i < |body| && i != |body| - 3 :: Strings.IsDigit(body[i]) by {
      forall i | 0 <= i < |body| && i != |body| - 3 ensures Strings.IsDigit(body[i]) {
        if i < |w| { assert body[i] == w[i]; } else { assert body[i] == d[i - |w| - 1]; }
      }
    }
    var key := body[..|body| - 3] + body[|body| - 2..];
    assert key == w + d by {
      assert body[..|body| - 3] == w && body[|body| - 2..] == d;
    }
    WholeAndCentsValue(a);
  }

  /** The whole part's digits followed by the two cents digits read as the amount. */
  lemma WholeAndCentsValue(a: nat)
    ensures Strings.DigitsValue(Strings.NatToString(a / 100) + CentsDigits(a)) == a
  {
    var w := Strings.NatToString(a / 100);
    var f := a % 100;
    var hi, t, u := a / 100, f / 10, f % 10;
    assert CentsDigits(a) == [Strings.DigitChar(t), Strings.DigitChar(u)];
    Strings.DigitsValueOfNatToString(hi);
    Strings.DigitCharValue(t);
    Strings.DigitCharValue(u);
    Strings.DigitsValueTwoMore(w, Strings.DigitChar(t), Strings.DigitChar(u));
    CentsDecomposition(a);
  }

  /** An amount is its whole part, its tens of cents and its cents. */
  lemma CentsDecomposition(a: nat)
    ensures (a / 100) * 100 + ((a % 100) / 10) * 10 + (a % 100) % 10 == a
  {
    var f := a % 100;
    assert a == (a / 100) * 100 + f;
    assert f == (f / 10) * 10 + f % 10;
  }

  /** `String(amount)` for an amount in cents: no fraction for a whole amount, one
      digit when the cents end in zero, two otherwise. */
  function NumberText(cents: int): string
  {
    var a := if cents < 0 then -cents else cents;
    var whole := (if cents < 0 then "-" else "") + Strings.NatToString(a / 100);
    var f := a % 100;
    if f == 0 then whole
    else if f % 10 == 0 then whole + "." + [Strings.DigitChar(f / 10)]
    else whole + "." + CentsDigits(cents)
  }

  /** A whole amount prints as its integer, and `toFixed(2)` of it ends in ".00". */
  lemma WholeAmountText(yuan: int)
    ensures NumberText(yuan * 100) == Strings.IntToString(yuan)
    ensures FixedTwo(yuan * 100) == Strings.IntToString(yuan) + ".00"
  {
    var c := yuan * 100;
    if yuan < 0 {
      assert -c == (-yuan) * 100;
      assert (-c) / 100 == -yuan && (-c) % 100 == 0;
    } else {
      assert c / 100 == yuan && c % 100 == 0;
    }
    assert CentsDigits(c) == "00";
  }

  // ---- the inventories --------------------------------------------------------------------

  datatype InventoryKind = Gifts | Materials

  function Other(k: InventoryKind): InventoryKind
  {
    match k
    case Gifts => Materials
    case Materials => Gifts
  }

  function Items(c: ActivityCostConfig, k: InventoryKind): seq<InventoryItem>
  {
    match k
    case Gifts => c.gifts
    case Materials => c.materials
  }

  function WithItems(c: ActivityCostConfig, k: InventoryKind, items: seq<InventoryItem>): (r: ActivityCostConfig)
    ensures Items(r, k) == items && Items(r, Other(k)) == Items(c, Other(k))
    ensures r.floorPrice == c.floorPrice && r.budgetCapPercent == c.budgetCapPercent
    ensures r.preferredStyle == c.preferredStyle
  {
    match k
    case Gifts => c.(gifts := items)
    case Materials => c.(materials := items)
  }

  /** What is typed into one of the two item inputs. */
  datatype ItemInput = ItemInput(name: string, price: string)

  const EmptyInput := ItemInput("", "")

  /** `addItem(type)` on the configuration: with a name and a price typed, the item
      is appended to the chosen list (the price is what `parseFloat` reads from
      the price text, given here in cents); otherwise nothing changes. */
  function AddItemStep(c: ActivityCostConfig, k: InventoryKind, input: ItemInput, price: int): ActivityCostConfig
  {
    if input.name == "" || input.price == "" then c
    else WithItems(c, k, Items(c, k) + [InventoryItem(input.name, price)])
  }

  /** `removeItem(type, i)` on the configuration. */
  function RemoveItemStep(c: ActivityCostConfig, k: InventoryKind, i: int): ActivityCostConfig
  {
    WithItems(c, k, App.RemoveAt(Items(c, k), i))
  }

  /** Adding is refused exactly when the name or the price text is empty; an
      accepted item is the new last entry of the chosen list, and the other list
      and the price settings stay as they were. */
  lemma AddItemEffect(c: ActivityCostConfig, k: InventoryKind, input: ItemInput, price: int)
    ensures var r := AddItemStep(c, k, input, price);
      && (input.name == "" || input.price == "" ==> r == c)
      && (input.name != "" && input.price != "" ==>
            && Items(r, k) == Items(c, k) + [InventoryItem(input.name, price)]
            && Items(r, Other(k)) == Items(c, Other(k))
            && r.floorPrice == c.floorPrice && r.budgetCapPercent == c.budgetCapPercent
            && r.preferredStyle == c.preferredStyle)
  {
  }

  /** Removing the item just added gives back the configuration as it was. */
  lemma RemoveUndoesAdd(c: ActivityCostConfig, k: InventoryKind, input: ItemInput, price: int)
    requires input.name != "" && input.price != ""
    ensures RemoveItemStep(AddItemStep(c, k, input, price), k, |Items(c, k)|) == c
  {
    var r := AddItemStep(c, k, input, price);
    assert App.RemoveAt(Items(r, k), |Items(c, k)|) == Items(c, k);
    match k {
      case Gifts =>
      case Materials =>
    }
  }

  /** Names are not checked for repetition: adding the same entry twice lists it twice. */
  lemma DuplicatesAccepted(c: ActivityCostConfig, k: InventoryKind, input: ItemInput, price: int)
    requires input.name != "" && input.price != ""
    ensures var item := InventoryItem(input.name, price);
      multiset(Items(AddItemStep(AddItemStep(c, k, input, price), k, input, price), k))[item]
        == multiset(Items(c, k))[item] + 2
  {
  }

  /** Removing at an index takes exactly that item out of the chosen list and no
      other; an index outside the list changes nothing. */
  lemma RemoveItemEffect(c: ActivityCostConfig, k: InventoryKind, i: int)
    ensures var r := RemoveItemStep(c, k, i);
      && Items(r, Other(k)) == Items(c, Other(k))
      && (0 <= i < |Items(c, k)| ==>
            multiset(Items(r, k)) + multiset{Items(c, k)[i]} == multiset(Items(c, k))
            && |Items(r, k)| == |Items(c, k)| - 1)
      && (!(0 <= i < |Items(c, k)|) ==> r == c)
  {
    if 0 <= i < |Items(c, k)| {
      App.RemoveAtMultiset(Items(c, k), i);
    } else {
      match k {
        case Gifts =>
        case Materials =>
      }
    }
  }

  /** The inventory configuration and the two item inputs of the planner. */
  class InventoryEditor {
    var costConfig: ActivityCostConfig
    var newGift: ItemInput
    var newMaterial: ItemInput

    function Input(k: InventoryKind): ItemInput
      reads this
    {
      match k
      case Gifts => newGift
      case Materials => newMaterial
    }

    constructor(c: ActivityCostConfig)
      ensures costConfig == c && newGift == EmptyInput && newMaterial == EmptyInput
    {
      costConfig := c;
      newGift, newMaterial := EmptyInput, EmptyInput;
    }

    /** `addItem(type)`; `price` is the value read from the price text, in cents.
        An accepted item clears its own input only. */
    method AddItem(k: InventoryKind, price: int)
      modifies this
      ensures costConfig == AddItemStep(old(costConfig), k, old(Input(k)), price)
      ensures old(Input(k)).name != "" && old(Input(k)).price != "" ==> Input(k) == EmptyInput
      ensures old(Input(k)).name == "" || old(Input(k)).price == "" ==> Input(k) == old(Input(k))
      ensures Input(Other(k)) == old(Input(Other(k)))
    {
      var input := Input(k);
      if input.name == "" || input.price == "" {
        return;
      }
      costConfig := WithItems(costConfig, k, Items(costConfig, k) + [InventoryItem(input.name, price)]);
      match k {
        case Gifts => newGift := EmptyInput;
        case Materials => newMaterial := EmptyInput;
      }
    }

    method RemoveItem(k: InventoryKind, i: int)
      modifies this`costConfig
      ensures costConfig == RemoveItemStep(old(costConfig), k, i)
    {
      costConfig := WithItems(costConfig, k, App.RemoveAt(Items(costConfig, k), i));
    }
  }

  // ---- saving the last plan ---------------------------------------------------------------

  /** `[...messages].reverse()`. */
  function Reversed(s: seq<ActivityChatMessage>): (r: seq<ActivityChatMessage>)
    ensures |r| == |s|
    ensures forall i | 0 <= i < |s| :: r[i] == s[|s| - 1 - i]
  {
    if s == [] then [] else [s[|s| - 1]] + Reversed(s[..|s| - 1])
  }

  /** `.find(m => m.plan)?.plan`: the plan of the first message that has one. */
  function FirstPlan(s: seq<ActivityChatMessage>): (r: Option<ActivityPlan>)
    ensures r.None? <==> forall i | 0 <= i < |s| :: s[i].plan.None?
    ensures r.Some? ==> exists i | 0 <= i < |s| :: s[i].plan == r && forall j | 0 <= j < i :: s[j].plan.None?
  {
    if s == [] then None
    else if s[0].plan.Some? then s[0].plan
    else
      var r := FirstPlan(s[1..]);
      assert forall i | 1 <= i < |s| :: s[i] == s[1..][i - 1];
      r
  }

  /** The plan `handleSaveLastPlan` looks up. */
  function LastPlan(chat: seq<ActivityChatMessage>): Option<ActivityPlan>
  {
    FirstPlan(Reversed(chat))
  }

  /** The lookup finds the plan of the latest message carrying one, and nothing
      exactly when no message carries a plan. */
  lemma LastPlanIsLatest(chat: seq<ActivityChatMessage>)
    ensures LastPlan(chat).None? <==> forall i | 0 <= i < |chat| :: chat[i].plan.None?
    ensures LastPlan(chat).Some? ==>
      exists i | 0 <= i < |chat| :: chat[i].plan == LastPlan(chat) && forall j | i < j < |chat| :: chat[j].plan.None?
  {
    FirstInReversedIsLast(chat, Reversed(chat), LastPlan(chat));
  }

  /** What is first in the reversed list is last in the list. */
  lemma FirstInReversedIsLast(chat: seq<ActivityChatMessage>, r: seq<ActivityChatMessage>, found: Option<ActivityPlan>)
    requires |r| == |chat| && forall i | 0 <= i < |chat| :: r[i] == chat[|chat| - 1 - i]
    requires found.None? <==> forall i | 0 <= i < |r| :: r[i].plan.None?
    requires found.Some? ==> exists k | 0 <= k < |r| :: r[k].plan == found && forall j | 0 <= j < k :: r[j].plan.None?
    ensures found.None? <==> forall i | 0 <= i < |chat| :: chat[i].plan.None?
    ensures found.Some? ==>
      exists i | 0 <= i < |chat| :: chat[i].plan == found && forall j | i < j < |chat| :: chat[j].plan.None?
  {
    var n := |chat|;
    if forall i | 0 <= i < n :: chat[i].plan.None? {
      forall i | 0 <= i < n ensures r[i].plan.None? {
        assert r[i] == chat[n - 1 - i];
      }
    }
    if found.None? {
      forall i | 0 <= i < n ensures chat[i].plan.None? {
        assert chat[i] == r[n - 1 - i];
      }
    }
    if found.Some? {
      var k :| 0 <= k < n && r[k].plan == found && forall j | 0 <= j < k :: r[j].plan.None?;
      var i := n - 1 - k;
      forall j | i < j < n ensures chat[j].plan.None? {
        assert chat[j] == r[n - 1 - j];
      }
      assert chat[i].plan == found;
    }
  }

  /** A message with a plan becomes the one saved; one without leaves the choice as it was. */
  lemma LastPlanAfterMessage(chat: seq<ActivityChatMessage>, m: ActivityChatMessage)
    ensures LastPlan(chat + [m]) == if m.plan.Some? then m.plan else LastPlan(chat)
  {
    assert (chat + [m])[..|chat|] == chat;
  }

  /** `¥price` or `?`: a missing analysis or a zero price shows a question mark. */
  function PriceText(fa: Option<FinancialAnalysis>): string
  {
    if fa.Some? && fa.value.suggestedPrice != 0 then NumberText(fa.value.suggestedPrice) else "?"
  }

  /** `totalCost.toFixed(2)` or `?` when the analysis is missing. */
  function CostText(fa: Option<FinancialAnalysis>): string
  {
    if fa.Some? then FixedTwo(fa.value.totalCost) else "?"
  }

  /** The summary line saved for a plan: dated heading with the theme, the suggested
      price, the total cost. */
  function LastPlanSummary(dateStr: string, plan: ActivityPlan): string
  {
    "[" + dateStr + "] 活动策划 (AI优化): " + plan.theme + "\n建议售价: ¥" + PriceText(plan.financialAnalysis)
      + "\n总成本: ¥" + CostText(plan.financialAnalysis)
  }

  /** `handleSaveLastPlan()`: the summary to save, or nothing without a plan. */
  function SaveLastPlan(chat: seq<ActivityChatMessage>, dateStr: string): (r: Option<string>)
    ensures r.None? <==> LastPlan(chat).None?
    ensures r.Some? ==> r.value == LastPlanSummary(dateStr, LastPlan(chat).value)
  {
    match LastPlan(chat)
    case None => None
    case Some(plan) => Some(LastPlanSummary(dateStr, plan))
  }

  /** The saved summary is three history lines: the dated theme, the price and
      the cost. */
  lemma LastPlanSummaryLines(dateStr: string, plan: ActivityPlan)
    requires '\n' !in dateStr && '\n' !in plan.theme
    ensures Strings.Split(LastPlanSummary(dateStr, plan), '\n') == [
      "[" + dateStr + "] 活动策划 (AI优化): " + plan.theme,
      "建议售价: ¥" + PriceText(plan.financialAnalysis),
      "总成本: ¥" + CostText(plan.financialAnalysis)]
  {
    var a := "[" + dateStr + "] 活动策划 (AI优化): " + plan.theme;
    var b := "建议售价: ¥" + PriceText(plan.financialAnalysis);
    var c := "总成本: ¥" + CostText(plan.financialAnalysis);
    NoNewlineInAmounts(plan.financialAnalysis);
    assert LastPlanSummary(dateStr, plan) == a + ['\n'] + b + ['\n'] + c;
    SplitThreeLines(a, b, c);
  }

  lemma SplitThreeLines(a: string, b: string, c: string)
    requires '\n' !in a && '\n' !in b && '\n' !in c
    ensures Strings.Split(a + ['\n'] + b + ['\n'] + c, '\n') == [a, b, c]
  {
    assert a + ['\n'] + b + ['\n'] + c == a + ['\n'] + (b + ['\n'] + c);
    Strings.SplitAppend(a, b + ['\n'] + c, '\n');
    Strings.SplitAppend(b, c, '\n');
    Strings.SplitWithoutSeparator(a, '\n');
    Strings.SplitWithoutSeparator(b, '\n');
    Strings.SplitWithoutSeparator(c, '\n');
  }

  /** Amount texts are made of digits, a sign and a point, never a line break. */
  lemma NoNewlineInAmounts(fa: Option<FinancialAnalysis>)
    ensures '\n' !in PriceText(fa) && '\n' !in CostText(fa)
  {
    if fa.Some? {
      var p := fa.value.suggestedPrice;
      var a := if p < 0 then -p else p;
      assert '\n' !in Strings.NatToString(a / 100);
      var t := fa.value.totalCost;
      var b := if t < 0 then -t else t;
      assert '\n' !in Strings.NatToString(b / 100);
    }
  }
}
