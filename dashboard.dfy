/**
  * The trade customer dashboard: the role switcher and the view selection
  * with its redirect for general customers, the quarterly-spend figures of
  * the dashboard page (progress bar and next milestone), and the ordered
  * annotation collection the overlay edits.
  */
module Dashboard {
  import opened Wrappers
  import opened Annotations

  // ---------------------------------------------------------------------------
  // Roles and views
  // ---------------------------------------------------------------------------

  /** The keys of ROLES_DATA, one per demo account. */
  datatype Role = General | Trade | Plus | Elite

  /** The tier label shown for each demo account. */
  function TierName(role: Role): (tier: string) {
    match role
    case General => "General Customer"
    case Trade => "Trade"
    case Plus => "Trade Plus"
    case Elite => "Trade Elite"
  }

  /** The quarterly spend recorded for each demo account. */
  function CurrentSpend(role: Role): (spend: int) {
    match role
    case General => 0
    case Trade => 3200
    case Plus => 7500
    case Elite => 15000
  }

  /** isGeneral: the account's tier label is "General Customer". */
  predicate IsGeneral(role: Role) {
    TierName(role) == "General Customer"
  }

  /** Only the general account carries the general tier label. */
  lemma GeneralIsOnlyGeneralRole(role: Role)
    ensures IsGeneral(role) <==> role == General
  {
    match role
    case General =>
    case Trade => assert TierName(role)[0] != "General Customer"[0];
    case Plus => assert TierName(role)[1] != "General Customer"[1];
    case Elite => assert TierName(role)[1] != "General Customer"[1];
  }

  /** The main-area views the sidebar selects. */
  datatype View = DashboardPage | History | Tracking | Rewards | Address | Settings

  /** The redirect effect: a general customer on the dashboard page is moved
    * to the settings ("My Account") page; any other view, and any view of a
    * non-general customer, stays. */
  function RedirectedView(view: View, general: bool): (v: View)
    ensures general ==> v != DashboardPage
    ensures v != view <==> general && view == DashboardPage
    ensures v != view ==> v == Settings
  {
    if general && view == DashboardPage then Settings else view
  }

  /** Running the effect again changes nothing. */
  lemma RedirectIdempotent(view: View, general: bool)
    ensures RedirectedView(RedirectedView(view, general), general) == RedirectedView(view, general)
  {
  }

  /** Whether the main area shows the dashboard page: only for the dashboard
    * view and a non-general customer. */
  predicate ShowsDashboardPage(view: View, general: bool) {
    view == DashboardPage && !general
  }

  /** Whether the main area shows some page: every view but the dashboard has
    * its page unconditionally. */
  predicate ShowsSomePage(view: View, general: bool) {
    ShowsDashboardPage(view, general) || view != DashboardPage
  }

  /** After the redirect the main area is never empty, and the dashboard page
    * appears exactly when a non-general customer chose it. */
  lemma RedirectShowsAPage(view: View, general: bool)
    ensures ShowsSomePage(RedirectedView(view, general), general)
    ensures ShowsDashboardPage(RedirectedView(view, general), general) <==> view == DashboardPage && !general
  {
  }

  // ---------------------------------------------------------------------------
  // Quarterly progress
  // ---------------------------------------------------------------------------

  /** MAX_GOAL: the spend at which the progress bar is full. */
  const MaxGoal := 10000

  /** The spend thresholds of the two upper tiers. */
  const PlusThreshold := 5000
  const EliteThreshold := 10000

  function MinReal(a: real, b: real): (m: real) { if a < b then a else b }

  /** progressPercent: the spend as a percentage of MAX_GOAL, capped at 100
    * (computed exactly; the browser's floating point is not modelled). */
  function ProgressPercent(currentSpend: int): (p: real)
    ensures p <= 100.0
    ensures p == 100.0 <==> currentSpend >= MaxGoal
    ensures currentSpend < MaxGoal ==> p == currentSpend as real / 100.0
    ensures currentSpend >= 0 ==> p >= 0.0
  {
    MinReal((currentSpend as real / MaxGoal as real) * 100.0, 100.0)
  }

  /** Spending more never shrinks the bar. */
  lemma ProgressMonotone(a: int, b: int)
    requires a <= b
    ensures ProgressPercent(a) <= ProgressPercent(b)
  {
  }

  /** The next-milestone block of the dashboard page: the lowest tier
    * threshold above the spend with that tier's reward and name, or a
    * milestone of 0 and empty texts from the top tier on. */
  method NextMilestone(currentSpend: int) returns (nextMilestone: int, nextReward: string, nextTierName: string)
    ensures nextMilestone == 0 <==> currentSpend >= EliteThreshold
    ensures nextMilestone != 0 ==> nextMilestone in {PlusThreshold, EliteThreshold} && currentSpend < nextMilestone
    ensures currentSpend < PlusThreshold ==> nextMilestone == PlusThreshold
    ensures nextMilestone == PlusThreshold ==> nextReward == "35% OFF" && nextTierName == "Plus"
    ensures nextMilestone == EliteThreshold ==> nextReward == "38% OFF" && nextTierName == "Elite"
    ensures nextMilestone == 0 ==> nextReward == "" && nextTierName == ""
    // amountToNext > 0 selects the "spend more" message, otherwise the
    // highest-tier message shows, which is exactly when the bar is full
    ensures nextMilestone - currentSpend > 0 <==> currentSpend < EliteThreshold
    ensures nextMilestone - currentSpend <= 0 <==> ProgressPercent(currentSpend) == 100.0
  {
    nextMilestone := 0;
    nextReward := "";
    nextTierName := "";

    if currentSpend < PlusThreshold {
      nextMilestone := PlusThreshold;
      nextReward := "35% OFF";
      nextTierName := "Plus";
    } else if currentSpend < EliteThreshold {
      nextMilestone := EliteThreshold;
      nextReward := "38% OFF";
      nextTierName := "Elite";
    }
  }

  /** The figures the dashboard page shows for a demo account: its progress,
    * the next milestone, how much is left to reach it, and the reward and
    * tier it unlocks. */
  method DashboardFigures(role: Role)
    returns (progress: real, nextMilestone: int, amountToNext: int, nextReward: string, nextTierName: string)
    ensures role == General ==> progress == 0.0 && nextMilestone == 5000 && amountToNext == 5000 && nextTierName == "Plus"
    ensures role == Trade ==> progress == 32.0 && nextMilestone == 5000 && amountToNext == 1800 && nextTierName == "Plus"
    ensures role == Plus ==> progress == 75.0 && nextMilestone == 10000 && amountToNext == 2500 && nextTierName == "Elite"
    ensures role == Elite ==> progress == 100.0 && nextMilestone == 0 && amountToNext == -15000 && nextTierName == ""
    ensures nextReward == if nextMilestone == 5000 then "35% OFF" else if nextMilestone == 10000 then "38% OFF" else ""
  {
    var currentSpend := CurrentSpend(role);
    progress := ProgressPercent(currentSpend);
    nextMilestone, nextReward, nextTierName := NextMilestone(currentSpend);
    amountToNext := nextMilestone - currentSpend;
  }

  // ---------------------------------------------------------------------------
  // The annotation collection
  // ---------------------------------------------------------------------------

  /** Where a new annotation appears. */
  const DefaultBox := Position(300, 300)
  const DefaultAnchor := Position(350, 450)

  /** How far a duplicate is moved from its source, in both directions. */
  const DuplicateOffset := 20

  /** No two entries share an id. */
  predicate IdsUnique(annotations: seq<AnnotationData>) {
    forall i, j :: 0 <= i < j < |annotations| ==> annotations[i].id != annotations[j].id
  }

  /** Whether some entry carries the id. */
  predicate HasId(annotations: seq<AnnotationData>, id: string) {
    exists i :: 0 <= i < |annotations| && annotations[i].id == id
  }

  /** handleAddAnnotation: appends a blank annotation at the default place
    * under the new id. */
  function AddAnnotation(annotations: seq<AnnotationData>, newId: string): (r: seq<AnnotationData>)
    ensures |r| == |annotations| + 1 && r[..|annotations|] == annotations
    ensures r[|annotations|] == AnnotationData(newId, DefaultBox, DefaultAnchor, "")
  {
    annotations + [AnnotationData(newId, DefaultBox, DefaultAnchor, "")]
  }

  /** handleDeleteAnnotation: `filter(a => a.id !== id)`. */
  function DeleteAnnotation(annotations: seq<AnnotationData>, id: string): (r: seq<AnnotationData>)
    ensures forall a :: a in r <==> a in annotations && a.id != id
    ensures |r| <= |annotations|
    ensures !HasId(r, id)
    ensures !HasId(annotations, id) ==> r == annotations
    decreases |annotations|
  {
    if annotations == [] then []
    else
      var rest := DeleteAnnotation(annotations[1..], id);
      assert !HasId(annotations, id) ==> !HasId(annotations[1..], id) by {
        if HasId(annotations[1..], id) {
          var i :| 0 <= i < |annotations[1..]| && annotations[1..][i].id == id;
          assert annotations[i + 1].id == id;
        }
      }
      assert annotations == [annotations[0]] + annotations[1..];
      if annotations[0].id != id then [annotations[0]] + rest else rest
  }

  /** Deleting from a concatenation deletes from each part and keeps the
    * parts in order: the survivors keep their relative order. */
  lemma {:induction false} DeleteDistributes(a: seq<AnnotationData>, b: seq<AnnotationData>, id: string)
    ensures DeleteAnnotation(a + b, id) == DeleteAnnotation(a, id) + DeleteAnnotation(b, id)
    decreases |a|
  {
    if a == [] {
      assert a + b == b;
    } else {
      assert (a + b)[1..] == a[1..] + b;
      DeleteDistributes(a[1..], b, id);
    }
  }

  /** The tail of a list with unique ids has unique ids, none of them the
    * head's. */
  lemma UniqueTail(annotations: seq<AnnotationData>)
    requires IdsUnique(annotations) && annotations != []
    ensures IdsUnique(annotations[1..])
    ensures forall a :: a in annotations[1..] ==> a.id != annotations[0].id
  {
    forall a | a in annotations[1..] ensures a.id != annotations[0].id {
      var k :| 0 <= k < |annotations[1..]| && annotations[1..][k] == a;
      assert annotations[k + 1] == a;
    }
  }

  /** An entry whose id the rest does not use can go in front. */
  lemma UniqueCons(head: AnnotationData, rest: seq<AnnotationData>)
    requires IdsUnique(rest)
    requires forall a :: a in rest ==> a.id != head.id
    ensures IdsUnique([head] + rest)
  {
    var r := [head] + rest;
    forall i, j | 0 <= i < j < |r| ensures r[i].id != r[j].id {
      assert r[j] == rest[j - 1];
      if i > 0 {
        assert r[i] == rest[i - 1];
      }
    }
  }

  /** Deleting keeps the ids unique. */
  lemma {:induction false} DeleteKeepsIdsUnique(annotations: seq<AnnotationData>, id: string)
    requires IdsUnique(annotations)
    ensures IdsUnique(DeleteAnnotation(annotations, id))
    decreases |annotations|
  {
    if annotations != [] {
      UniqueTail(annotations);
      DeleteKeepsIdsUnique(annotations[1..], id);
      if annotations[0].id != id {
        UniqueCons(annotations[0], DeleteAnnotation(annotations[1..], id));
      }
    }
  }

  /** A copy of `p` moved by the duplicate offset in both directions. */
  function Offset(p: Position): (q: Position) {
    Position(p.x + DuplicateOffset, p.y + DuplicateOffset)
  }

  /** handleDuplicateAnnotation: appends a copy of the reported body under the
    * new id, box and anchor each moved 20 right and 20 down, content
    * verbatim. */
  function DuplicateAnnotation(annotations: seq<AnnotationData>, body: AnnotationBody, newId: string): (r: seq<AnnotationData>)
    ensures |r| == |annotations| + 1 && r[..|annotations|] == annotations
    ensures r[|annotations|].id == newId && r[|annotations|].content == body.content
    ensures r[|annotations|].boxPos == Position(body.boxPos.x + 20, body.boxPos.y + 20)
    ensures r[|annotations|].anchorPos == Position(body.anchorPos.x + 20, body.anchorPos.y + 20)
  {
    annotations + [AnnotationData(newId, Offset(body.boxPos), Offset(body.anchorPos), body.content)]
  }

  /** The worked example: duplicating content "X" with box (100,100) and
    * anchor (50,50) appends content "X" with box (120,120) and anchor
    * (70,70) under an id distinct from the source's. */
  lemma DuplicateExample(annotations: seq<AnnotationData>, source: AnnotationData, newId: string)
    requires source.content == "X" && source.boxPos == Position(100, 100) && source.anchorPos == Position(50, 50)
    requires newId != source.id
    ensures var r := DuplicateAnnotation(annotations, AnnotationBody(source.boxPos, source.anchorPos, source.content), newId);
      r[|annotations|] == AnnotationData(newId, Position(120, 120), Position(70, 70), "X")
      && r[|annotations|].id != source.id
  {
  }

  /** Adding or duplicating under an id not yet in use keeps the ids
    * unique. */
  lemma AppendKeepsIdsUnique(annotations: seq<AnnotationData>, newId: string, body: AnnotationBody)
    requires IdsUnique(annotations) && !HasId(annotations, newId)
    ensures IdsUnique(AddAnnotation(annotations, newId))
    ensures IdsUnique(DuplicateAnnotation(annotations, body, newId))
  {
    var r := AddAnnotation(annotations, newId);
    forall i, j | 0 <= i < j < |r| ensures r[i].id != r[j].id {
      if j == |annotations| {
        assert r[i] == annotations[i];
      } else {
        assert r[i] == annotations[i] && r[j] == annotations[j];
      }
    }
    var s := DuplicateAnnotation(annotations, body, newId);
    forall i, j | 0 <= i < j < |s| ensures s[i].id != s[j].id {
      if j == |annotations| {
        assert s[i] == annotations[i];
      } else {
        assert s[i] == annotations[i] && s[j] == annotations[j];
      }
    }
  }

  /** `{ ...ann, ...newData }`: every field the patch sets replaces the
    * entry's, every other field stays. */
  function Merge(ann: AnnotationData, patch: Patch): (merged: AnnotationData) {
    AnnotationData(
      if patch.id.Some? then patch.id.value else ann.id,
      if patch.boxPos.Some? then patch.boxPos.value else ann.boxPos,
      if patch.anchorPos.Some? then patch.anchorPos.value else ann.anchorPos,
      if patch.content.Some? then patch.content.value else ann.content)
  }

  /** The empty patch changes nothing, merging the same patch twice is
    * merging it once, and the later of two patches wins on a field both
    * set. */
  lemma MergeLaws(ann: AnnotationData, p: Patch, q: Patch)
    ensures Merge(ann, Patch(None, None, None, None)) == ann
    ensures Merge(Merge(ann, p), p) == Merge(ann, p)
    ensures q.id.Some? ==> Merge(Merge(ann, p), q).id == q.id.value
    ensures q.id.None? ==> Merge(Merge(ann, p), q).id == Merge(ann, p).id
    ensures q.boxPos.Some? ==> Merge(Merge(ann, p), q).boxPos == q.boxPos.value
    ensures q.boxPos.None? ==> Merge(Merge(ann, p), q).boxPos == Merge(ann, p).boxPos
    ensures q.anchorPos.Some? ==> Merge(Merge(ann, p), q).anchorPos == q.anchorPos.value
    ensures q.anchorPos.None? ==> Merge(Merge(ann, p), q).anchorPos == Merge(ann, p).anchorPos
    ensures q.content.Some? ==> Merge(Merge(ann, p), q).content == q.content.value
    ensures q.content.None? ==> Merge(Merge(ann, p), q).content == Merge(ann, p).content
  {
  }

  /** The patch that sets every field either patch sets, the second one's
    * value winning where both do. */
  function Combine(p: Patch, q: Patch): (c: Patch) {
    Patch(
      if q.id.Some? then q.id else p.id,
      if q.boxPos.Some? then q.boxPos else p.boxPos,
      if q.anchorPos.Some? then q.anchorPos else p.anchorPos,
      if q.content.Some? then q.content else p.content)
  }

  /** Two successive updates of an entry amount to one update with the
    * combined patch. */
  lemma MergeTwice(ann: AnnotationData, p: Patch, q: Patch)
    ensures Merge(Merge(ann, p), q) == Merge(ann, Combine(p, q))
  {
  }

  /** The patches the annotation component sends: a drag commit sets both
    * positions, a content commit only the content; neither touches the id. */
  lemma ComponentPatches(ann: AnnotationData, box: Position, anchor: Position, text: string)
    ensures Merge(ann, Patch(None, Some(box), Some(anchor), None)) == ann.(boxPos := box, anchorPos := anchor)
    ensures Merge(ann, Patch(None, None, None, Some(text))) == ann.(content := text)
  {
  }

  /** handleUpdateAnnotation: `map(ann => ann.id === id ? { ...ann, ...newData } : ann)`. */
  function UpdateAnnotation(annotations: seq<AnnotationData>, id: string, patch: Patch): (r: seq<AnnotationData>)
    ensures |r| == |annotations|
    ensures forall i :: 0 <= i < |annotations| ==>
      r[i] == if annotations[i].id == id then Merge(annotations[i], patch) else annotations[i]
    decreases |annotations|
  {
    if annotations == [] then []
    else
      var head := if annotations[0].id == id then Merge(annotations[0], patch) else annotations[0];
      [head] + UpdateAnnotation(annotations[1..], id, patch)
  }

  /** An update without an id in the patch keeps the ids, so it keeps them
    * unique, and an update of an absent id changes nothing. */
  lemma UpdateKeepsIds(annotations: seq<AnnotationData>, id: string, patch: Patch)
    requires patch.id.None?
    ensures forall i :: 0 <= i < |annotations| ==> UpdateAnnotation(annotations, id, patch)[i].id == annotations[i].id
    ensures IdsUnique(annotations) ==> IdsUnique(UpdateAnnotation(annotations, id, patch))
    ensures !HasId(annotations, id) ==> UpdateAnnotation(annotations, id, patch) == annotations
  {
    var r := UpdateAnnotation(annotations, id, patch);
    if !HasId(annotations, id) {
      assert forall i :: 0 <= i < |annotations| ==> r[i] == annotations[i];
    }
  }

  // ---------------------------------------------------------------------------
  // The component
  // ---------------------------------------------------------------------------

  /** The dashboard component's state: the selected view and demo account,
    * the annotation-mode switch and the annotation collection. */
  class TradeDashboard {
    var activeView: View
    var currentRole: Role
    var isDevMode: bool
    var annotations: seq<AnnotationData>

    /** Opening the dashboard: the dashboard page of the trade account, the
      * overlay hidden, the default annotations. */
    constructor (defaults: seq<AnnotationData>)
      ensures activeView == DashboardPage && currentRole == Trade && !isDevMode
      ensures annotations == defaults
    {
      activeView := DashboardPage;
      currentRole := Trade;
      isDevMode := false;
      annotations := defaults;
    }

    /** A role-switcher button. */
    method SelectRole(role: Role)
      modifies this`currentRole
      ensures currentRole == role
    {
      currentRole := role;
    }

    /** A sidebar entry or the rewards-history link. */
    method SelectView(view: View)
      modifies this`activeView
      ensures activeView == view
    {
      activeView := view;
    }

    /** The annotation-mode switch. */
    method ToggleDevMode()
      modifies this`isDevMode
      ensures isDevMode == !old(isDevMode)
    {
      isDevMode := !isDevMode;
    }

    /** The effect that keeps a general customer off the dashboard page. */
    method RedirectGeneral()
      modifies this`activeView
      ensures activeView == RedirectedView(old(activeView), IsGeneral(currentRole))
    {
      if IsGeneral(currentRole) && activeView == DashboardPage {
        activeView := Settings;
      }
    }

    method HandleAddAnnotation(newId: string)
      modifies this`annotations
      ensures annotations == AddAnnotation(old(annotations), newId)
    {
      annotations := AddAnnotation(annotations, newId);
    }

    method HandleDeleteAnnotation(id: string)
      modifies this`annotations
      ensures annotations == DeleteAnnotation(old(annotations), id)
    {
      annotations := DeleteAnnotation(annotations, id);
    }

    method HandleDuplicateAnnotation(body: AnnotationBody, newId: string)
      modifies this`annotations
      ensures annotations == DuplicateAnnotation(old(annotations), body, newId)
    {
      annotations := DuplicateAnnotation(annotations, body, newId);
    }

    method HandleUpdateAnnotation(id: string, patch: Patch)
      modifies this`annotations
      ensures annotations == UpdateAnnotation(old(annotations), id, patch)
    {
      annotations := UpdateAnnotation(annotations, id, patch);
    }
  }

  /** Switching to the general account while on the dashboard page, then
    * running the redirect, lands on the settings page, and the main area
    * shows it. */
  method SwitchToGeneral(d: TradeDashboard)
    requires d.activeView == DashboardPage
    modifies d
    ensures d.currentRole == General && d.activeView == Settings
    ensures ShowsSomePage(d.activeView, IsGeneral(d.currentRole))
  {
    d.SelectRole(General);
    d.RedirectGeneral();
  }
}
