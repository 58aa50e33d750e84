/** components/ProfileList.tsx: which profiles the side list shows for a status
    tab and a search term, in which order, how the export groups them by status,
    and the one-line history preview under each entry. All of it is pure. */
module ProfileList {
  import opened Types
  import Strings
  import App
  import GeminiService

  // ---- filtering ------------------------------------------------------------------

  /** The search term occurs in the name, in the child's name, or in the course's
      display value. */
  predicate MatchesSearch(p: ClientProfile, term: string)
  {
    Strings.Includes(p.name, term)
    || (p.childName.Some? && Strings.Includes(p.childName.value, term))
    || Strings.Includes(CourseLabel(p.course), term)
  }

  predicate Listed(p: ClientProfile, tab: ClientStatus, term: string)
  {
    MatchesSearch(p, term) && p.status == tab
  }

  /** `filteredProfiles`: the profiles of the tab that match the search, in list
      order; each is kept as often as it occurs. */
  function FilteredProfiles(ps: seq<ClientProfile>, tab: ClientStatus, term: string): (r: seq<ClientProfile>)
    ensures forall p :: p in r <==> p in ps && Listed(p, tab, term)
    ensures forall p :: multiset(r)[p] == if Listed(p, tab, term) then multiset(ps)[p] else 0
    ensures |r| <= |ps|
  {
    if ps == [] then []
    else
      var rest := FilteredProfiles(ps[1..], tab, term);
      assert ps == [ps[0]] + ps[1..];
      if Listed(ps[0], tab, term) then [ps[0]] + rest else rest
  }

  /** The filter keeps list order: filtering a list with one more profile appended
      filters the earlier ones and then keeps that profile if it is listed. */
  lemma {:induction false} FilteredProfilesSnoc(ps: seq<ClientProfile>, x: ClientProfile, tab: ClientStatus, term: string)
    ensures FilteredProfiles(ps + [x], tab, term)
      == FilteredProfiles(ps, tab, term) + (if Listed(x, tab, term) then [x] else [])
  {
    var t := if Listed(x, tab, term) then [x] else [];
    if ps == [] {
      assert [] + [x] == [x] && [x][1..] == [];
      FilteredProfilesUnfold([x], tab, term);
    } else {
      var qs := ps + [x];
      assert qs[0] == ps[0] && qs[1..] == ps[1..] + [x];
      FilteredProfilesUnfold(qs, tab, term);
      FilteredProfilesUnfold(ps, tab, term);
      FilteredProfilesSnoc(ps[1..], x, tab, term);
      Regroup(FilteredProfiles(qs, tab, term), FilteredProfiles(ps, tab, term),
        if Listed(ps[0], tab, term) then [ps[0]] else [],
        FilteredProfiles(ps[1..], tab, term), t);
    }
  }

  /** `h + (c + t) == (h + c) + t`, said of the filtered lists. */
  lemma Regroup(a: seq<ClientProfile>, b: seq<ClientProfile>, h: seq<ClientProfile>, c: seq<ClientProfile>, t: seq<ClientProfile>)
    requires a == h + (c + t) && b == h + c
    ensures a == b + t
  {
  }

  /** One step of the filter. */
  lemma FilteredProfilesUnfold(ps: seq<ClientProfile>, tab: ClientStatus, term: string)
    requires ps != []
    ensures FilteredProfiles(ps, tab, term)
      == (if Listed(ps[0], tab, term) then [ps[0]] else []) + FilteredProfiles(ps[1..], tab, term)
  {
  }

  /** The empty search term matches every profile, so the tab alone decides. */
  lemma EmptySearchListsWholeTab(ps: seq<ClientProfile>, tab: ClientStatus, p: ClientProfile)
    requires p in ps && p.status == tab
    ensures p in FilteredProfiles(ps, tab, "")
  {
    assert Strings.OccursAt(p.name, "", 0);
  }

  // ---- ordering ---------------------------------------------------------------------

  /** The sort key of a tab: lessons left on REGULAR, trial lessons left (missing is
      0) on TRIAL, and the creation time reversed on LEAD and CHURNED, so that the
      list ascends by the key. */
  function SortKey(tab: ClientStatus, p: ClientProfile): int
  {
    match tab
    case Regular => p.remainingLessons
    case Trial => if p.trialRemainingLessons.Some? then p.trialRemainingLessons.value else 0
    case _ => -p.addDate
  }

  predicate SortedFor(tab: ClientStatus, s: seq<ClientProfile>)
  {
    forall i, j | 0 <= i < j < |s| :: SortKey(tab, s[i]) <= SortKey(tab, s[j])
  }

  /** Puts `x` after every element whose key is not greater than its own. */
  function Insert(tab: ClientStatus, x: ClientProfile, s: seq<ClientProfile>): (r: seq<ClientProfile>)
    requires SortedFor(tab, s)
    ensures SortedFor(tab, r)
    ensures multiset(r) == multiset(s) + multiset{x}
    ensures |r| == |s| + 1
    ensures r[0] == x || (|s| > 0 && r[0] == s[0])
  {
    if s == [] then [x]
    else if SortKey(tab, x) < SortKey(tab, s[0]) then
      SortedCons(tab, x, s);
      [x] + s
    else
      SortedTail(tab, s);
      var rest := Insert(tab, x, s[1..]);
      InsertCons(tab, x, s, rest);
      [s[0]] + rest
  }

  /** The tail of a sorted list is sorted. */
  lemma SortedTail(tab: ClientStatus, s: seq<ClientProfile>)
    requires SortedFor(tab, s) && s != []
    ensures SortedFor(tab, s[1..])
  {
    forall i, j | 0 <= i < j < |s[1..]| ensures SortKey(tab, s[1..][i]) <= SortKey(tab, s[1..][j]) {
      assert s[1..][i] == s[i + 1] && s[1..][j] == s[j + 1];
    }
  }

  /** The step of `Insert` past the head: keeping the head in front of the tail
      with `x` inserted keeps the list sorted and adds exactly `x`. */
  lemma InsertCons(tab: ClientStatus, x: ClientProfile, s: seq<ClientProfile>, rest: seq<ClientProfile>)
    requires SortedFor(tab, s) && s != [] && SortKey(tab, s[0]) <= SortKey(tab, x)
    requires SortedFor(tab, rest)
    requires multiset(rest) == multiset(s[1..]) + multiset{x}
    requires |rest| == |s[1..]| + 1
    requires rest[0] == x || (|s[1..]| > 0 && rest[0] == s[1..][0])
    ensures SortedFor(tab, [s[0]] + rest)
    ensures multiset([s[0]] + rest) == multiset(s) + multiset{x}
  {
    assert |s| > 1 ==> SortKey(tab, s[0]) <= SortKey(tab, s[1]);
    SortedCons(tab, s[0], rest);
    assert s == [s[0]] + s[1..];
  }

  /** A sorted list stays sorted under a head whose key is not above its first key. */
  lemma SortedCons(tab: ClientStatus, a: ClientProfile, t: seq<ClientProfile>)
    requires SortedFor(tab, t)
    requires |t| > 0 ==> SortKey(tab, a) <= SortKey(tab, t[0])
    ensures SortedFor(tab, [a] + t)
  {
    var r := [a] + t;
    forall i, j | 0 <= i < j < |r| ensures SortKey(tab, r[i]) <= SortKey(tab, r[j]) {
      if i == 0 {
        assert r[j] == t[j - 1];
        assert SortKey(tab, t[0]) <= SortKey(tab, t[j - 1]) || j == 1;
      } else {
        assert r[i] == t[i - 1] && r[j] == t[j - 1];
      }
    }
  }

  /** `[...filteredProfiles].sort(..)`: a sorted copy holding exactly the same profiles. */
  function SortedProfiles(tab: ClientStatus, s: seq<ClientProfile>): (r: seq<ClientProfile>)
    ensures SortedFor(tab, r)
    ensures multiset(r) == multiset(s)
    ensures |r| == |s|
  {
    if s == [] then []
    else
      assert s == s[..|s| - 1] + [s[|s| - 1]];
      Insert(tab, s[|s| - 1], SortedProfiles(tab, s[..|s| - 1]))
  }

  /** What the list shows for a tab and a search term. */
  function ShownProfiles(ps: seq<ClientProfile>, tab: ClientStatus, term: string): seq<ClientProfile>
  {
    SortedProfiles(tab, FilteredProfiles(ps, tab, term))
  }

  /** A profile is shown exactly when it is on the tab and matches the search; the
      REGULAR tab ascends by lessons left, the TRIAL tab by trial lessons left, the
      LEAD and CHURNED tabs descend by creation time. */
  lemma ShownProfilesOrder(ps: seq<ClientProfile>, tab: ClientStatus, term: string)
    ensures var r := ShownProfiles(ps, tab, term);
      && (forall p :: p in r <==> p in ps && Listed(p, tab, term))
      && (forall i | 0 <= i < |r| :: r[i].status == tab)
      && (tab == Regular ==> forall i, j | 0 <= i < j < |r| :: r[i].remainingLessons <= r[j].remainingLessons)
      && (tab == Trial ==> forall i, j | 0 <= i < j < |r| ::
            (if r[i].trialRemainingLessons.Some? then r[i].trialRemainingLessons.value else 0)
            <= (if r[j].trialRemainingLessons.Some? then r[j].trialRemainingLessons.value else 0))
      && (tab == Lead || tab == Churned ==> forall i, j | 0 <= i < j < |r| :: r[i].addDate >= r[j].addDate)
  {
    var f := FilteredProfiles(ps, tab, term);
    var r := ShownProfiles(ps, tab, term);
    forall p ensures p in r <==> p in f {
      assert p in r <==> multiset(r)[p] > 0;
      assert p in f <==> multiset(f)[p] > 0;
    }
    forall i | 0 <= i < |r| ensures r[i].status == tab {
      assert r[i] in r;
    }
    if tab == Trial {
      forall i, j | 0 <= i < j < |r|
        ensures (if r[i].trialRemainingLessons.Some? then r[i].trialRemainingLessons.value else 0)
             <= (if r[j].trialRemainingLessons.Some? then r[j].trialRemainingLessons.value else 0)
      {
        assert SortKey(tab, r[i]) <= SortKey(tab, r[j]);
      }
    }
    if tab == Lead || tab == Churned {
      forall i, j | 0 <= i < j < |r| ensures r[i].addDate >= r[j].addDate {
        assert SortKey(tab, r[i]) <= SortKey(tab, r[j]);
      }
    }
  }

  /** `getTabLabel(status)`. */
  function TabLabel(s: ClientStatus): string
  {
    match s
    case Regular => "正课"
    case Trial => "试听"
    case Lead => "咨询"
    case Churned => "流失"
  }

  /** The tab labels are distinct, and each with "学员" appended is the status's
      own display value (the export's group heading). */
  lemma TabLabelsNameStatuses(s: ClientStatus, t: ClientStatus)
    ensures TabLabel(s) + "学员" == StatusLabel(s)
    ensures s != t ==> TabLabel(s) != TabLabel(t)
  {
  }

  // ---- grouping for export ------------------------------------------------------------

  /** `profiles.filter(p => p.status === status)`. */
  function WithStatus(ps: seq<ClientProfile>, st: ClientStatus): (r: seq<ClientProfile>)
    ensures forall p :: p in r <==> p in ps && p.status == st
  {
    if ps == [] then []
    else
      assert ps == [ps[0]] + ps[1..];
      var rest := WithStatus(ps[1..], st);
      if ps[0].status == st then [ps[0]] + rest else rest
  }

  function StatusRank(st: ClientStatus): nat
  {
    match st
    case Regular => 0
    case Trial => 1
    case Lead => 2
    case Churned => 3
  }

  datatype Group = Group(status: ClientStatus, members: seq<ClientProfile>)

  /** The group of one status, or nothing when no profile has it. */
  function GroupOf(ps: seq<ClientProfile>, st: ClientStatus): (g: seq<Group>)
    ensures |g| <= 1
    ensures forall k | 0 <= k < |g| :: g[k].status == st && g[k].members != [] && g[k].members == WithStatus(ps, st)
    ensures g == [] <==> WithStatus(ps, st) == []
  {
    if WithStatus(ps, st) == [] then [] else [Group(st, WithStatus(ps, st))]
  }

  /** `handleExportAll` up to the rendering: nothing for an empty list (an alert is
      shown instead), otherwise the non-empty status groups in the order REGULAR,
      TRIAL, LEAD, CHURNED. */
  function ExportGroups(ps: seq<ClientProfile>): (r: Option<seq<Group>>)
    ensures r.None? <==> ps == []
  {
    if ps == [] then None
    else Some(GroupOf(ps, Regular) + GroupOf(ps, Trial) + GroupOf(ps, Lead) + GroupOf(ps, Churned))
  }

  /** Every exported profile is in exactly one group, the group of its status, and
      the groups come in the fixed status order without an empty one. */
  lemma ExportGroupsPartition(ps: seq<ClientProfile>, p: ClientProfile)
    requires p in ps
    ensures var g := ExportGroups(ps).value;
      && (forall i, j | 0 <= i < j < |g| :: StatusRank(g[i].status) < StatusRank(g[j].status))
      && (forall k | 0 <= k < |g| :: g[k].members != [] && g[k].members == WithStatus(ps, g[k].status))
      && (exists k | 0 <= k < |g| :: g[k].status == p.status && p in g[k].members)
      && (forall k, k' | 0 <= k < |g| && 0 <= k' < |g| && p in g[k].members && p in g[k'].members :: k == k')
  {
    var a, b, c, d := GroupOf(ps, Regular), GroupOf(ps, Trial), GroupOf(ps, Lead), GroupOf(ps, Churned);
    var g := ExportGroups(ps).value;
    assert g == a + b + c + d;
    forall k | 0 <= k < |g|
      ensures g[k].members != [] && g[k].members == WithStatus(ps, g[k].status)
      ensures g[k].status == (if k < |a| then Regular else if k < |a| + |b| then Trial
                              else if k < |a| + |b| + |c| then Lead else Churned)
    {
      if k < |a| { assert g[k] == a[k]; }
      else if k < |a| + |b| { assert g[k] == b[k - |a|]; }
      else if k < |a| + |b| + |c| { assert g[k] == c[k - |a| - |b|]; }
      else { assert g[k] == d[k - |a| - |b| - |c|]; }
    }
    assert p in WithStatus(ps, p.status);
    var k0 := match p.status
      case Regular => 0
      case Trial => |a|
      case Lead => |a| + |b|
      case Churned => |a| + |b| + |c|;
    assert g[k0].status == p.status;
  }

  /** The four status groups together are exactly as large as the whole list. */
  lemma {:induction false} StatusCountsAddUp(ps: seq<ClientProfile>)
    ensures |WithStatus(ps, Regular)| + |WithStatus(ps, Trial)| + |WithStatus(ps, Lead)|
            + |WithStatus(ps, Churned)| == |ps|
  {
    if ps != [] {
      StatusCountsAddUp(ps[1..]);
    }
  }

  // ---- history preview -------------------------------------------------------------------

  /** The preview under an entry: the last line of the history, shown only when the
      history is non-empty and there is no other-package note. */
  function HistoryPreview(p: ClientProfile): (r: Option<string>)
    ensures r.Some? <==> p.historySummary != "" && !GeminiService.Truthy(p.otherPackages)
    ensures r.Some? ==> '\n' !in r.value
    ensures r.Some? ==>
      (|r.value| <= |p.historySummary| && p.historySummary[|p.historySummary| - |r.value|..] == r.value)
  {
    if p.historySummary != "" && !GeminiService.Truthy(p.otherPackages) then
      Strings.LastPieceIsSuffix(p.historySummary, '\n');
      Some(Strings.LastPiece(p.historySummary, '\n'))
    else None
  }

  /** After a one-line entry is appended to a history, the preview shows that entry. */
  lemma PreviewShowsLatestEntry(p: ClientProfile, entry: string)
    requires '\n' !in entry && entry != ""
    requires !GeminiService.Truthy(p.otherPackages)
    ensures HistoryPreview(p.(historySummary := App.AppendHistory(p.historySummary, entry))) == Some(entry)
  {
    Strings.SplitWithoutSeparator(entry, '\n');
  }
}
