/** The editing rules of components/ProfileForm.tsx. Each edit is a patch of the
    displayed (selected) profile that the form hands to the store: status changes
    with their lesson defaults, screenshots appended or removed, the activity
    summary appended to the history, and the numeric lesson fields read with
    `parseInt(..) || 0`. The personality analysis button is a small class around
    its busy flag. */
module ProfileForm {
  import opened Types
  import Strings
  import App

  // ---- status -----------------------------------------------------------------

  /** `!profile.trialRemainingLessons`: no trial count, or a count of zero. */
  predicate NoTrialLessons(p: ClientProfile)
  {
    p.trialRemainingLessons.None? || p.trialRemainingLessons.value == 0
  }

  /** `handleStatusChange(newStatus)`: the patch always sets the status. Entering
      TRIAL without trial lessons adds one trial lesson; entering REGULAR with no
      lessons left adds a standard package of 16 lessons. No other key is set. */
  function StatusChangePatch(p: ClientProfile, newStatus: ClientStatus): (u: Patch)
    ensures u.status == Some(newStatus)
    ensures u.trialRemainingLessons.Some? <==> newStatus == Trial && p.status != Trial && NoTrialLessons(p)
    ensures u.trialRemainingLessons.Some? ==> u.trialRemainingLessons.value == Some(1)
    ensures u.remainingLessons.Some? <==> newStatus == Regular && p.status != Regular && p.remainingLessons == 0
    ensures u.remainingLessons.Some? ==> u.remainingLessons.value == 16
    ensures u.currentPackage.Some? <==> u.remainingLessons.Some?
    ensures u.currentPackage.Some? ==> u.currentPackage.value == Standard
    ensures u.(status := None, trialRemainingLessons := None, remainingLessons := None,
               currentPackage := None) == EmptyPatch
  {
    var u0 := EmptyPatch.(status := Some(newStatus));
    var u1 := if newStatus == Trial && p.status != Trial && NoTrialLessons(p)
              then u0.(trialRemainingLessons := Some(Some(1))) else u0;
    if newStatus == Regular && p.status != Regular && p.remainingLessons == 0
    then u1.(remainingLessons := Some(16), currentPackage := Some(Standard))
    else u1
  }

  /** After a status change the profile has the new status; a profile that enters
      TRIAL has a non-zero trial count and one that enters REGULAR has lessons
      left; non-zero counts are never overwritten; and for LEAD or CHURNED, or
      when the status does not change, only the status is written. */
  lemma StatusChangeEffect(p: ClientProfile, newStatus: ClientStatus)
    ensures var r := App.Merge(p, StatusChangePatch(p, newStatus));
      && r.status == newStatus
      && (newStatus == Trial && p.status != Trial ==> !NoTrialLessons(r))
      && (newStatus == Regular && p.status != Regular ==> r.remainingLessons != 0)
      && (!NoTrialLessons(p) ==> r.trialRemainingLessons == p.trialRemainingLessons)
      && (p.remainingLessons != 0 ==> r.remainingLessons == p.remainingLessons && r.currentPackage == p.currentPackage)
      && (newStatus == Lead || newStatus == Churned || newStatus == p.status ==> r == p.(status := newStatus))
  {
  }

  // ---- screenshots ------------------------------------------------------------

  /** `profile.profileScreenshots || []`. */
  function Screenshots(p: ClientProfile): seq<string>
  {
    if p.profileScreenshots.Some? then p.profileScreenshots.value else []
  }

  /** The data URLs of the image files, in order; other files are dropped. */
  function ImageUrls(files: seq<App.IncomingFile>): (r: seq<string>)
    ensures |r| <= |files|
    ensures r == [] <==> forall i | 0 <= i < |files| :: !Strings.StartsWith(files[i].mimeType, "image/")
  {
    if files == [] then []
    else
      var rest := ImageUrls(files[1..]);
      assert (forall i | 0 <= i < |files| :: !Strings.StartsWith(files[i].mimeType, "image/"))
        <==> !Strings.StartsWith(files[0].mimeType, "image/")
             && (forall i | 0 <= i < |files[1..]| :: !Strings.StartsWith(files[1..][i].mimeType, "image/")) by {
        forall i | 1 <= i < |files| ensures files[i] == files[1..][i - 1] { }
      }
      if Strings.StartsWith(files[0].mimeType, "image/") then [files[0].dataUrl] + rest else rest
  }

  /** An image file lands in the list, with every earlier image before it. */
  lemma {:induction false} ImageUrlsKeepsImages(files: seq<App.IncomingFile>, a: seq<App.IncomingFile>, f: App.IncomingFile)
    requires Strings.StartsWith(f.mimeType, "image/")
    ensures ImageUrls(a + [f] + files) == ImageUrls(a) + [f.dataUrl] + ImageUrls(files)
    decreases |a|
  {
    if a == [] {
      assert [f] + files == (a + [f] + files);
      assert (a + [f] + files)[1..] == files;
    } else {
      assert (a + [f] + files)[0] == a[0];
      assert (a + [f] + files)[1..] == a[1..] + [f] + files;
      ImageUrlsKeepsImages(files, a[1..], f);
    }
  }

  /** `processFiles(files)`: nothing when no image is given, otherwise the images
      appended after the current screenshots. */
  function ProcessFilesPatch(p: ClientProfile, files: seq<App.IncomingFile>): (u: Option<Patch>)
    ensures u.None? <==> ImageUrls(files) == []
    ensures u.Some? ==> u.value.(profileScreenshots := None) == EmptyPatch
    ensures u.Some? ==> u.value.profileScreenshots == Some(Some(Screenshots(p) + ImageUrls(files)))
  {
    var images := ImageUrls(files);
    if images == [] then None
    else Some(EmptyPatch.(profileScreenshots := Some(Some(Screenshots(p) + images))))
  }

  /** Appending keeps every existing screenshot in place and adds one screenshot per
      image file. */
  lemma ProcessFilesAppends(p: ClientProfile, files: seq<App.IncomingFile>)
    requires ProcessFilesPatch(p, files).Some?
    ensures var r := App.Merge(p, ProcessFilesPatch(p, files).value);
      && r.(profileScreenshots := p.profileScreenshots) == p
      && r.profileScreenshots.Some?
      && r.profileScreenshots.value[..|Screenshots(p)|] == Screenshots(p)
      && |Screenshots(p)| < |r.profileScreenshots.value| <= |Screenshots(p)| + |files|
  {
    var r := App.Merge(p, ProcessFilesPatch(p, files).value);
    assert r.profileScreenshots.value == Screenshots(p) + ImageUrls(files);
  }

  /** `removeImage(i)`: the list without its element at `i`. */
  function RemoveImagePatch(p: ClientProfile, i: int): (u: Patch)
    ensures u.(profileScreenshots := None) == EmptyPatch
    ensures u.profileScreenshots == Some(Some(App.RemoveAt(Screenshots(p), i)))
  {
    EmptyPatch.(profileScreenshots := Some(Some(App.RemoveAt(Screenshots(p), i))))
  }

  /** Removing a screenshot takes out exactly that one and keeps the others in
      order; an index out of range keeps the whole list. */
  lemma RemoveImageEffect(p: ClientProfile, i: int)
    ensures var shots := App.Merge(p, RemoveImagePatch(p, i)).profileScreenshots;
      && shots.Some?
      && (!(0 <= i < |Screenshots(p)|) ==> shots.value == Screenshots(p))
      && (0 <= i < |Screenshots(p)| ==>
            multiset(shots.value) + multiset{Screenshots(p)[i]} == multiset(Screenshots(p))
            && shots.value == Screenshots(p)[..i] + Screenshots(p)[i + 1..])
  {
    if 0 <= i < |Screenshots(p)| {
      App.RemoveAtMultiset(Screenshots(p), i);
    }
  }

  // ---- history ------------------------------------------------------------------

  /** `handleSaveActivityToHistory(summary)`: the history with the summary added by
      the rule the store uses for its own entries. The form defines this handler but
      never calls it. */
  function ActivityHistoryPatch(p: ClientProfile, summary: string): (u: Patch)
    ensures u.(historySummary := None) == EmptyPatch
    ensures u.historySummary.Some?
    ensures var h := u.historySummary.value;
      && (p.historySummary == "" ==> h == summary)
      && (p.historySummary != "" ==>
            Strings.Split(h, '\n') == Strings.Split(p.historySummary, '\n') + Strings.Split(summary, '\n'))
  {
    var text := p.historySummary + (if p.historySummary != "" then "\n" else "") + summary;
    assert text == App.AppendHistory(p.historySummary, summary);
    EmptyPatch.(historySummary := Some(text))
  }

  /** The form's patch and the store's "save to history" produce the same profile. */
  lemma ActivityHistoryMatchesStore(p: ClientProfile, summary: string)
    ensures App.Merge(p, ActivityHistoryPatch(p, summary))
      == p.(historySummary := App.AppendHistory(p.historySummary, summary))
  {
  }

  // ---- numeric lesson fields -------------------------------------------------------

  datatype LessonField = Remaining | TrialRemaining

  /** Editing a lesson count: the text read with `parseInt(text) || 0`. */
  function LessonFieldPatch(f: LessonField, text: string): (u: Patch)
    ensures f == Remaining ==> u == EmptyPatch.(remainingLessons := Some(Strings.ParseIntOrZero(text)))
    ensures f == TrialRemaining ==> u == EmptyPatch.(trialRemainingLessons := Some(Some(Strings.ParseIntOrZero(text))))
  {
    match f
    case Remaining => EmptyPatch.(remainingLessons := Some(Strings.ParseIntOrZero(text)))
    case TrialRemaining => EmptyPatch.(trialRemainingLessons := Some(Some(Strings.ParseIntOrZero(text))))
  }

  /** Typing the decimal text of a count stores that count, negative ones included;
      text without any digit stores 0. */
  lemma LessonFieldReadsBack(p: ClientProfile, n: int, junk: string)
    requires forall i | 0 <= i < |junk| :: !Strings.IsDigit(junk[i])
    ensures App.Merge(p, LessonFieldPatch(Remaining, Strings.IntToString(n))).remainingLessons == n
    ensures App.Merge(p, LessonFieldPatch(TrialRemaining, Strings.IntToString(n))).trialRemainingLessons == Some(n)
    ensures App.Merge(p, LessonFieldPatch(Remaining, junk)).remainingLessons == 0
    ensures App.Merge(p, LessonFieldPatch(TrialRemaining, junk)).trialRemainingLessons == Some(0)
  {
    Strings.ParseIntOfIntToString(n);
    Strings.ParseIntWithoutDigits(junk);
  }

  // ---- personality analysis ---------------------------------------------------------

  /** The personality analysis button of the form, with its busy flag. */
  class PersonalityPanel {
    var isAnalyzing: bool

    constructor()
      ensures !isAnalyzing
    {
      isAnalyzing := false;
    }

    /** `triggerPersonalityAnalysis()`: asks for an analysis of the selected profile
        (`reply` is the service's answer). A reply replaces `personalityAnalysis`
        wholesale; without a selected profile or on an error the profile is left
        alone and an alert is raised. The busy flag ends false either way. */
    method TriggerPersonalityAnalysis(store: App.ProfileStore, reply: GatewayResult<PersonalityAnalysisResult>)
      returns (alerted: bool)
      modifies this, store
      ensures !isAnalyzing
      ensures alerted <==> old(store.Selected()).None? || reply.Failure?
      ensures alerted ==> store.State() == old(store.State())
      ensures !alerted ==> store.State() == App.UpdateSelectedStep(old(store.State()),
                             EmptyPatch.(personalityAnalysis := Some(Some(reply.value))))
    {
      isAnalyzing := true;
      var current := store.Selected();
      if current.None? || reply.Failure? {
        alerted := true;
      } else {
        store.UpdateSelected(EmptyPatch.(personalityAnalysis := Some(Some(reply.value))));
        alerted := false;
      }
      isAnalyzing := false;
    }
  }

  /** A successful analysis replaces only the analysis of the selected profile(s). */
  lemma PersonalityResultReplacesAnalysis(s: App.StoreState, a: PersonalityAnalysisResult)
    requires s.selectedId.Some? && s.selectedId.value != ""
    ensures var r := App.UpdateSelectedStep(s, EmptyPatch.(personalityAnalysis := Some(Some(a))));
      forall i | 0 <= i < |s.profiles| ::
        r.profiles[i] == (if s.profiles[i].id == s.selectedId.value
                          then s.profiles[i].(personalityAnalysis := Some(a)) else s.profiles[i])
  {
  }
}
