/** The plan lifecycle of the project store (create, update, approve, update one phase, each
    appending one history entry) and the plan queries (plans of a capability, latest plan,
    history, comparison of two plans' phases). */
module Plans {
  import opened Wrappers
  import opened Types
  import Seqs
  import Records

  // ---------------------------------------------------------------- creating a plan

  /** What `addPlan` receives: a plan without id, timestamps, version, history and metadata. */
  datatype PlanInput = PlanInput(
    capabilityId: string,
    planType: PlanType,
    status: PlanStatus,
    phases: PlanPhases,
    approval: Option<Approval>)

  /** The plan `addPlan` stores. */
  function NewPlan(input: PlanInput, id: string, now: string, user: string): Plan {
    Plan(id, input.capabilityId, input.planType, 1, now, now, Draft, input.phases,
         Metadata(user, user), input.approval, [])
  }

  /** A new plan is version 1, a draft, with no history, created and updated at the same time by
      the acting user, and carries the caller's capability, type, phases and approval; the
      status the caller passed makes no difference. */
  lemma NewPlanFacts(input: PlanInput, id: string, now: string, user: string, other: PlanStatus)
    ensures var p := NewPlan(input, id, now, user);
      p.id == id && p.version == 1 && p.status == Draft && p.history == [] &&
      p.createdAt == p.updatedAt == now &&
      p.metadata.createdBy == p.metadata.lastUpdatedBy == user &&
      p.capabilityId == input.capabilityId && p.planType == input.planType &&
      p.phases == input.phases && p.approval == input.approval
    ensures NewPlan(input.(status := other), id, now, user) == NewPlan(input, id, now, user)
  {
  }

  // ---------------------------------------------------------------- Partial<Plan>

  /** The properties of a plan. */
  datatype PlanKey =
    | IdKey | CapabilityIdKey | TypeKey | VersionKey | CreatedAtKey | UpdatedAtKey
    | StatusKey | PhasesKey | MetadataKey | ApprovalKey | HistoryKey

  /** The property's name, as `Object.entries` reports it. */
  function KeyName(k: PlanKey): string {
    match k
    case IdKey => "id"
    case CapabilityIdKey => "capabilityId"
    case TypeKey => "type"
    case VersionKey => "version"
    case CreatedAtKey => "createdAt"
    case UpdatedAtKey => "updatedAt"
    case StatusKey => "status"
    case PhasesKey => "phases"
    case MetadataKey => "metadata"
    case ApprovalKey => "approval"
    case HistoryKey => "history"
  }

  /** One property of a `Partial<Plan>` with its value; the partial itself is the sequence of
      its properties in the order `Object.entries` lists them. */
  datatype PlanField =
    | SetId(id: string)
    | SetCapabilityId(capabilityId: string)
    | SetType(planType: PlanType)
    | SetVersion(version: int)
    | SetCreatedAt(createdAt: string)
    | SetUpdatedAt(updatedAt: string)
    | SetStatus(status: PlanStatus)
    | SetPhases(phases: PlanPhases)
    | SetMetadata(metadata: Metadata)
    | SetApproval(approval: Option<Approval>)
    | SetHistory(history: seq<HistoryEntry>)

  function KeyOf(f: PlanField): PlanKey {
    match f
    case SetId(_) => IdKey
    case SetCapabilityId(_) => CapabilityIdKey
    case SetType(_) => TypeKey
    case SetVersion(_) => VersionKey
    case SetCreatedAt(_) => CreatedAtKey
    case SetUpdatedAt(_) => UpdatedAtKey
    case SetStatus(_) => StatusKey
    case SetPhases(_) => PhasesKey
    case SetMetadata(_) => MetadataKey
    case SetApproval(_) => ApprovalKey
    case SetHistory(_) => HistoryKey
  }

  /** The value a property of the partial carries. */
  function ValueOf(f: PlanField): Value {
    match f
    case SetId(v) => Text(v)
    case SetCapabilityId(v) => Text(v)
    case SetType(v) => TypeValue(v)
    case SetVersion(v) => Number(v)
    case SetCreatedAt(v) => Text(v)
    case SetUpdatedAt(v) => Text(v)
    case SetStatus(v) => StatusValue(v)
    case SetPhases(v) => PhasesValue(v)
    case SetMetadata(v) => MetadataValue(v)
    case SetApproval(v) => ApprovalValue(v)
    case SetHistory(v) => HistoryValue(v)
  }

  /** `p[k]`. */
  function Get(p: Plan, k: PlanKey): Value {
    match k
    case IdKey => Text(p.id)
    case CapabilityIdKey => Text(p.capabilityId)
    case TypeKey => TypeValue(p.planType)
    case VersionKey => Number(p.version)
    case CreatedAtKey => Text(p.createdAt)
    case UpdatedAtKey => Text(p.updatedAt)
    case StatusKey => StatusValue(p.status)
    case PhasesKey => PhasesValue(p.phases)
    case MetadataKey => MetadataValue(p.metadata)
    case ApprovalKey => ApprovalValue(p.approval)
    case HistoryKey => HistoryValue(p.history)
  }

  /** `{...p, [key]: value}` for one property. */
  function Assign(p: Plan, f: PlanField): Plan {
    match f
    case SetId(v) => p.(id := v)
    case SetCapabilityId(v) => p.(capabilityId := v)
    case SetType(v) => p.(planType := v)
    case SetVersion(v) => p.(version := v)
    case SetCreatedAt(v) => p.(createdAt := v)
    case SetUpdatedAt(v) => p.(updatedAt := v)
    case SetStatus(v) => p.(status := v)
    case SetPhases(v) => p.(phases := v)
    case SetMetadata(v) => p.(metadata := v)
    case SetApproval(v) => p.(approval := v)
    case SetHistory(v) => p.(history := v)
  }

  /** `{...p, ...partial}`. */
  function Spread(p: Plan, partial: seq<PlanField>): Plan {
    if partial == [] then p
    else Assign(Spread(p, partial[..|partial| - 1]), partial[|partial| - 1])
  }

  /** The value `partial` gives property `k`, if it has that property (the last one wins). */
  function Lookup(partial: seq<PlanField>, k: PlanKey): Option<Value> {
    if partial == [] then None
    else if KeyOf(partial[|partial| - 1]) == k then Some(ValueOf(partial[|partial| - 1]))
    else Lookup(partial[..|partial| - 1], k)
  }

  /** An object has each property at most once. */
  predicate DistinctKeys(partial: seq<PlanField>) {
    forall i, j :: 0 <= i < j < |partial| ==> KeyOf(partial[i]) != KeyOf(partial[j])
  }

  lemma AssignGet(p: Plan, f: PlanField, k: PlanKey)
    ensures Get(Assign(p, f), k) == if KeyOf(f) == k then ValueOf(f) else Get(p, k)
  {
  }

  /** After spreading, a property holds the partial's value when the partial has it and the
      plan's own value otherwise. */
  lemma {:induction false} SpreadGet(p: Plan, partial: seq<PlanField>, k: PlanKey)
    ensures Get(Spread(p, partial), k) == Lookup(partial, k).GetOr(Get(p, k))
  {
    if partial != [] {
      SpreadGet(p, partial[..|partial| - 1], k);
      AssignGet(Spread(p, partial[..|partial| - 1]), partial[|partial| - 1], k);
    }
  }

  lemma SpreadSnoc(p: Plan, partial: seq<PlanField>, f: PlanField)
    ensures Spread(p, partial + [f]) == Assign(Spread(p, partial), f)
  {
    assert (partial + [f])[..|partial|] == partial;
  }

  /** `Lookup` finds a property exactly when the partial lists it, with the value listed. */
  lemma {:induction false} LookupFinds(partial: seq<PlanField>, k: PlanKey)
    requires DistinctKeys(partial)
    ensures Lookup(partial, k).None? <==> forall i :: 0 <= i < |partial| ==> KeyOf(partial[i]) != k
    ensures forall i :: 0 <= i < |partial| && KeyOf(partial[i]) == k ==>
              Lookup(partial, k) == Some(ValueOf(partial[i]))
  {
    if partial != [] {
      LookupFinds(partial[..|partial| - 1], k);
    }
  }

  // ---------------------------------------------------------------- updatePlan

  /** The `newValue` an update records for a property. The recorded metadata is the very object
      the updated plan ends up holding, so it shows the `lastUpdatedBy` the update writes into it. */
  function RecordedValue(f: PlanField, user: string): Value {
    match f
    case SetMetadata(m) => MetadataValue(m.(lastUpdatedBy := user))
    case _ => ValueOf(f)
  }

  /** The `changes` of an update: per property of the partial, in order, its name, the plan's
      previous value and the value recorded for the partial's value. */
  function UpdateChanges(p: Plan, partial: seq<PlanField>, user: string): seq<Change> {
    Seqs.Map(partial, (f: PlanField) => Change(KeyName(KeyOf(f)), Get(p, KeyOf(f)), RecordedValue(f, user)))
  }

  /** What `updatePlan` makes of a plan with the id: the partial spread over it, `updatedAt`
      stamped, `lastUpdatedBy` set to the acting user and one `updated` entry appended. */
  function UpdatedPlan(p: Plan, partial: seq<PlanField>, now: string, user: string, entryId: string): Plan {
    var merged := Spread(p, partial);
    merged.(
      updatedAt := now,
      metadata := merged.metadata.(lastUpdatedBy := user),
      history := merged.history + [HistoryEntry(entryId, now, Updated, user, UpdateChanges(p, partial, user))])
  }

  /** The history the updated plan starts from: its own, or the one the partial brings. */
  function BaseHistory(p: Plan, partial: seq<PlanField>): seq<HistoryEntry> {
    Spread(p, partial).history
  }

  /** `updatePlan` appends exactly one entry, an `updated` entry by the acting user whose changes
      list one item per property of the partial, in order, with the old and the new value. */
  lemma {:induction false} UpdatedPlanHistory(p: Plan, partial: seq<PlanField>, now: string, user: string, entryId: string)
    ensures var r := UpdatedPlan(p, partial, now, user, entryId);
      |r.history| == |BaseHistory(p, partial)| + 1 &&
      r.history[..|r.history| - 1] == BaseHistory(p, partial) &&
      var e := r.history[|r.history| - 1];
      e.action == Updated && e.userId == user && e.timestamp == now && e.id == entryId &&
      |e.changes| == |partial| &&
      forall i :: 0 <= i < |partial| ==>
        e.changes[i].field == KeyName(KeyOf(partial[i])) &&
        e.changes[i].oldValue == Get(p, KeyOf(partial[i])) &&
        e.changes[i].newValue == RecordedValue(partial[i], user)
    ensures Lookup(partial, HistoryKey).None? ==> BaseHistory(p, partial) == p.history
  {
    SpreadGet(p, partial, HistoryKey);
  }

  /** After `updatePlan`, `lastUpdatedBy` is the acting user, `updatedAt` is now, and every other
      property (the version among them) holds the partial's value if the partial has it and the
      old value otherwise: the version moves only when the partial sets it. */
  lemma UpdatedPlanProperties(p: Plan, partial: seq<PlanField>, now: string, user: string, entryId: string, k: PlanKey)
    requires k != UpdatedAtKey && k != MetadataKey && k != HistoryKey
    ensures var r := UpdatedPlan(p, partial, now, user, entryId);
      r.metadata.lastUpdatedBy == user && r.updatedAt == now &&
      Get(r, k) == Lookup(partial, k).GetOr(Get(p, k))
    ensures Lookup(partial, VersionKey).None? ==> UpdatedPlan(p, partial, now, user, entryId).version == p.version
    ensures Lookup(partial, MetadataKey).None? ==>
      UpdatedPlan(p, partial, now, user, entryId).metadata.createdBy == p.metadata.createdBy
    ensures forall m :: Lookup(partial, MetadataKey) == Some(MetadataValue(m)) ==>
      UpdatedPlan(p, partial, now, user, entryId).metadata == m.(lastUpdatedBy := user)
  {
    SpreadGet(p, partial, k);
    SpreadGet(p, partial, VersionKey);
    SpreadGet(p, partial, MetadataKey);
  }

  // ---------------------------------------------------------------- approvePlan

  /** What `approvePlan` makes of a plan with the id. */
  function ApprovedPlan(p: Plan, approver: string, comments: Option<string>, now: string, entryId: string): Plan {
    p.(
      status := Active,
      updatedAt := now,
      approval := Some(Approval(approver, now, comments)),
      history := p.history + [HistoryEntry(entryId, now, Approved, approver,
                                           [Change("status", StatusValue(p.status), StatusValue(Active))])])
  }

  /** Approval makes the plan active, stamps the update and the approval with the current time,
      appends exactly one `approved` entry by the approver at that time recording `status` from
      its old value to active, and
      leaves id, capability, type, version, creation time, phases and metadata alone. */
  lemma ApprovedPlanFacts(p: Plan, approver: string, comments: Option<string>, now: string, entryId: string)
    ensures var r := ApprovedPlan(p, approver, comments, now, entryId);
      r.status == Active && r.approval.Some? &&
      r.approval.value.approvedBy == approver && r.approval.value.approvedAt == r.updatedAt &&
      r.approval.value.comments == comments && r.updatedAt == now &&
      HistoryExtends(p.history, r.history) &&
      r.history[|p.history|].timestamp == now && r.history[|p.history|].id == entryId &&
      r.history[|p.history|].action == Approved && r.history[|p.history|].userId == approver &&
      r.history[|p.history|].changes == [Change("status", StatusValue(p.status), StatusValue(Active))] &&
      r.id == p.id && r.capabilityId == p.capabilityId && r.planType == p.planType &&
      r.version == p.version && r.createdAt == p.createdAt && r.phases == p.phases &&
      r.metadata == p.metadata
  {
  }

  /** `h2` is `h1` with exactly one entry appended. */
  predicate HistoryExtends(h1: seq<HistoryEntry>, h2: seq<HistoryEntry>) {
    |h2| == |h1| + 1 && h2[..|h1|] == h1
  }

  // ---------------------------------------------------------------- updatePlanPhase

  /** The `changes` field name of a phase update. */
  function PhaseField(n: PhaseName): string {
    "phases." + PhaseKey(n)
  }

  /** What `updatePlanPhase` makes of a plan with the id: phase `n` becomes the old phase with the
      update spread over it (the update alone when the phase was absent). */
  function PhaseUpdatedPlan(p: Plan, n: PhaseName, u: Phase, now: string, user: string, entryId: string): Plan {
    var ph := OverlayPhase(p.phases.Get(n), u);
    p.(
      updatedAt := now,
      phases := p.phases.With(n, ph),
      history := p.history + [HistoryEntry(entryId, now, Updated, user,
                                           [Change(PhaseField(n), PhaseValue(p.phases.Get(n)), PhaseValue(Some(ph)))])])
  }

  /** A phase update replaces only that phase, by the overlay; the other phases, the metadata,
      the version, the status, the capability, the type and the creation time stay; one `updated`
      entry by the acting user at the update time is added, whose single change `phases.<name>` goes from the old phase to the overlaid one. */
  lemma PhaseUpdatedPlanFacts(p: Plan, n: PhaseName, u: Phase, now: string, user: string, entryId: string)
    ensures var r := PhaseUpdatedPlan(p, n, u, now, user, entryId);
      r.phases.Get(n) == Some(OverlayPhase(p.phases.Get(n), u)) &&
      (forall m :: m != n ==> r.phases.Get(m) == p.phases.Get(m)) &&
      r.metadata == p.metadata && r.version == p.version && r.status == p.status &&
      r.id == p.id && r.approval == p.approval && r.updatedAt == now &&
      r.capabilityId == p.capabilityId && r.planType == p.planType && r.createdAt == p.createdAt &&
      HistoryExtends(p.history, r.history) &&
      r.history[|p.history|].userId == user &&
      r.history[|p.history|].action == Updated && r.history[|p.history|].timestamp == now &&
      r.history[|p.history|].id == entryId &&
      r.history[|p.history|].changes ==
        [Change(PhaseField(n), PhaseValue(p.phases.Get(n)), PhaseValue(Some(OverlayPhase(p.phases.Get(n), u))))]
  {
  }

  /** Within the replaced phase, a property the update gives takes the update's value and every
      other property keeps the old phase's value. */
  lemma OverlayPhaseFields(prev: Phase, u: Phase)
    ensures var r := OverlayPhase(Some(prev), u);
      (u.startDate.None? ==> r.startDate == prev.startDate) &&
      (u.endDate.None? ==> r.endDate == prev.endDate) &&
      (u.status.None? ==> r.status == prev.status) &&
      (u.progress.None? ==> r.progress == prev.progress) &&
      (u.notes.None? ==> r.notes == prev.notes) &&
      (u.assignedTo.None? ==> r.assignedTo == prev.assignedTo) &&
      (u.startDate.Some? ==> r.startDate == u.startDate) &&
      (u.endDate.Some? ==> r.endDate == u.endDate) &&
      (u.status.Some? ==> r.status == u.status) &&
      (u.progress.Some? ==> r.progress == u.progress) &&
      (u.notes.Some? ==> r.notes == u.notes) &&
      (u.assignedTo.Some? ==> r.assignedTo == u.assignedTo)
  {
  }

  // ---------------------------------------------------------------- store-level plan actions

  function UpdatePlans(plans: seq<Plan>, id: string, partial: seq<PlanField>, now: string, user: string, entryId: string): seq<Plan> {
    Records.UpdateById(plans, Records.PlanId, id, p => UpdatedPlan(p, partial, now, user, entryId))
  }

  function ApprovePlans(plans: seq<Plan>, id: string, approver: string, comments: Option<string>, now: string, entryId: string): seq<Plan> {
    Records.UpdateById(plans, Records.PlanId, id, p => ApprovedPlan(p, approver, comments, now, entryId))
  }

  function UpdatePlanPhases(plans: seq<Plan>, id: string, n: PhaseName, u: Phase, now: string, user: string, entryId: string): seq<Plan> {
    Records.UpdateById(plans, Records.PlanId, id, p => PhaseUpdatedPlan(p, n, u, now, user, entryId))
  }

  // ---------------------------------------------------------------- queries

  /** `getCapabilityPlans`: the plans of a capability, both types, in store order. */
  function CapabilityPlans(plans: seq<Plan>, capabilityId: string): seq<Plan> {
    Seqs.Filter(plans, (p: Plan) => p.capabilityId == capabilityId)
  }

  /** The plans of a capability with the given type, in store order. */
  function MatchingPlans(plans: seq<Plan>, capabilityId: string, planType: PlanType): seq<Plan> {
    Seqs.Filter(plans, (p: Plan) => p.capabilityId == capabilityId && p.planType == planType)
  }

  /** The position of the first plan, in sequence order, whose version no plan exceeds. */
  function FirstMaxIndex(s: seq<Plan>): (i: nat)
    requires s != []
    ensures i < |s|
    ensures forall j :: 0 <= j < |s| ==> s[j].version <= s[i].version
    ensures forall j :: 0 <= j < i ==> s[j].version < s[i].version
  {
    if |s| == 1 then 0
    else
      var k := FirstMaxIndex(s[1..]);
      FirstMaxIndexStep(s, k);
      if s[0].version >= s[k + 1].version then 0 else k + 1
  }

  /** Comparing the head with the first maximum of the tail gives the first maximum. */
  lemma FirstMaxIndexStep(s: seq<Plan>, k: nat)
    requires |s| > 1 && k < |s| - 1
    requires forall j :: 0 <= j < |s| - 1 ==> s[1..][j].version <= s[1..][k].version
    requires forall j :: 0 <= j < k ==> s[1..][j].version < s[1..][k].version
    ensures s[k + 1] == s[1..][k]
    ensures forall j :: 0 < j < |s| ==> s[j].version <= s[k + 1].version
    ensures forall j :: 0 < j < k + 1 ==> s[j].version < s[k + 1].version
  {
    forall j | 0 < j < |s| ensures s[j] == s[1..][j - 1] {
    }
  }

  /** A position holding a plan no other plan exceeds, after only strictly older plans, is the
      first maximum. */
  lemma FirstMaxIndexUnique(s: seq<Plan>, i: nat)
    requires i < |s|
    requires forall j :: 0 <= j < |s| ==> s[j].version <= s[i].version
    requires forall j :: 0 <= j < i ==> s[j].version < s[i].version
    ensures FirstMaxIndex(s) == i
  {
  }

  /** The first plan of maximal version. */
  function FirstMax(s: seq<Plan>): (r: Plan)
    requires s != []
    ensures r in s && forall p :: p in s ==> p.version <= r.version
  {
    var i := FirstMaxIndex(s);
    assert forall p :: p in s ==> exists j :: 0 <= j < |s| && s[j] == p;
    s[i]
  }

  /** Place `x` before the first plan whose version is not greater: insertion into a sequence
      sorted by decreasing version, ahead of plans of equal version that came after it. */
  function InsertByVersion(x: Plan, s: seq<Plan>): seq<Plan> {
    if s == [] || s[0].version <= x.version then [x] + s
    else [s[0]] + InsertByVersion(x, s[1..])
  }

  predicate SortedByVersionDesc(s: seq<Plan>) {
    forall i, j :: 0 <= i < j < |s| ==> s[i].version >= s[j].version
  }

  /** Inserting adds exactly `x`. */
  lemma {:induction false} InsertByVersionCount(x: Plan, s: seq<Plan>)
    ensures multiset(InsertByVersion(x, s)) == multiset(s) + multiset{x}
  {
    if s != [] && s[0].version > x.version {
      InsertByVersionCount(x, s[1..]);
      assert s == [s[0]] + s[1..];
    }
  }

  /** Inserting below a bound stays below it. */
  lemma {:induction false} InsertByVersionBound(x: Plan, s: seq<Plan>, v: int)
    requires x.version <= v && forall i :: 0 <= i < |s| ==> s[i].version <= v
    ensures forall i :: 0 <= i < |InsertByVersion(x, s)| ==> InsertByVersion(x, s)[i].version <= v
  {
    if s != [] && s[0].version > x.version {
      InsertByVersionBound(x, s[1..], v);
    }
  }

  lemma {:induction false} InsertByVersionSorted(x: Plan, s: seq<Plan>)
    requires SortedByVersionDesc(s)
    ensures SortedByVersionDesc(InsertByVersion(x, s))
  {
    if s != [] && s[0].version > x.version {
      var t := s[1..];
      InsertByVersionSorted(x, t);
      InsertByVersionBound(x, t, s[0].version);
      var r := InsertByVersion(x, t);
      assert InsertByVersion(x, s) == [s[0]] + r;
    }
  }

  /** `[...s].sort((a, b) => b.version - a.version)`: JavaScript's sort is stable, so this is the
      stable sort by decreasing version, written as an insertion sort. */
  function SortByVersionDesc(s: seq<Plan>): (r: seq<Plan>)
    ensures SortedByVersionDesc(r)
    ensures multiset(r) == multiset(s)
  {
    if s == [] then []
    else
      InsertByVersionSorted(s[0], SortByVersionDesc(s[1..]));
      InsertByVersionCount(s[0], SortByVersionDesc(s[1..]));
      assert s == [s[0]] + s[1..];
      InsertByVersion(s[0], SortByVersionDesc(s[1..]))
  }

  /** The head of the sorted sequence is the first plan of maximal version. */
  lemma {:induction false} SortHeadIsFirstMax(s: seq<Plan>)
    requires s != []
    ensures SortByVersionDesc(s) != [] && SortByVersionDesc(s)[0] == FirstMax(s)
  {
    var r := SortByVersionDesc(s);
    assert s[0] in multiset(r);
    if |s| > 1 {
      SortHeadIsFirstMax(s[1..]);
      var t := SortByVersionDesc(s[1..]);
      assert t[0] == FirstMax(s[1..]);
    } else {
      assert s[1..] == [];
    }
  }

  /** `getLatestPlan` of the store: the head of the matching plans sorted by decreasing version.
      It is absent exactly when no plan matches; otherwise it matches, no matching plan has a
      greater version, and it is the first such plan in store order. */
  function LatestPlan(plans: seq<Plan>, capabilityId: string, planType: PlanType): (r: Option<Plan>)
    ensures r.None? <==> forall p :: p in plans ==> !(p.capabilityId == capabilityId && p.planType == planType)
    ensures r.Some? ==> r.value in plans && r.value.capabilityId == capabilityId && r.value.planType == planType
    ensures r.Some? ==> forall p :: p in plans && p.capabilityId == capabilityId && p.planType == planType ==>
                                     p.version <= r.value.version
    ensures r.Some? ==> r == Some(FirstMax(MatchingPlans(plans, capabilityId, planType)))
  {
    var m := MatchingPlans(plans, capabilityId, planType);
    if m == [] then None
    else
      SortHeadIsFirstMax(m);
      Some(SortByVersionDesc(m)[0])
  }

  /** A `getPlanHistory` item: the entry with the display name of the plan's capability. */
  datatype NamedEntry = NamedEntry(entry: HistoryEntry, planName: string)

  /** `capability?.name || 'Unknown Plan'`: a missing capability and an empty name both give
      the fallback. */
  function PlanName(capabilities: seq<Capability>, capabilityId: string): string {
    var c := Seqs.Find(capabilities, (c: Capability) => c.id == capabilityId);
    if c.Some? && c.value.name != "" then c.value.name else "Unknown Plan"
  }

  /** `getPlanHistory`: the plan's own history, in order, each entry named after the capability;
      empty when no plan has the id. */
  function PlanHistory(plans: seq<Plan>, capabilities: seq<Capability>, planId: string): (r: seq<NamedEntry>)
    ensures (forall p :: p in plans ==> p.id != planId) ==> r == []
    ensures forall p :: Seqs.Find(plans, (q: Plan) => q.id == planId) == Some(p) ==>
      |r| == |p.history| &&
      forall i :: 0 <= i < |r| ==>
        r[i].entry == p.history[i] && r[i].planName == PlanName(capabilities, p.capabilityId)
  {
    var p := Seqs.Find(plans, (q: Plan) => q.id == planId);
    if p.None? then []
    else
      var name := PlanName(capabilities, p.value.capabilityId);
      Seqs.Map(p.value.history, (h: HistoryEntry) => NamedEntry(h, name))
  }

  // ---------------------------------------------------------------- comparePlans

  /** The phase properties the comparison looks at. */
  datatype ComparedField = StartDateField | EndDateField | StatusField

  function FieldKey(f: ComparedField): string {
    match f
    case StartDateField => "startDate"
    case EndDateField => "endDate"
    case StatusField => "status"
  }

  /** One reported change: a property of a phase present in both plans. */
  datatype FieldChange = FieldChange(phase: PhaseName, field: ComparedField)

  /** `<phase>.<field>`, the text the comparison reports for a change. */
  function FieldPath(c: FieldChange): string {
    PhaseKey(c.phase) + "." + FieldKey(c.field)
  }

  /** What the comparison found, before it is written out as text. */
  datatype Comparison = Comparison(added: seq<PhaseName>, removed: seq<PhaseName>, changed: seq<FieldChange>)

  /** The `{added, removed, changed}` object `comparePlans` returns. */
  datatype ComparisonText = ComparisonText(added: seq<string>, removed: seq<string>, changed: seq<string>)

  const NoDifferences := Comparison([], [], [])

  function Render(c: Comparison): ComparisonText {
    ComparisonText(Seqs.Map(c.added, PhaseKey), Seqs.Map(c.removed, PhaseKey), Seqs.Map(c.changed, FieldPath))
  }

  function Differs(a: Phase, b: Phase, f: ComparedField): bool {
    match f
    case StartDateField => a.startDate != b.startDate
    case EndDateField => a.endDate != b.endDate
    case StatusField => a.status != b.status
  }

  /** The changes of one phase present in both plans, in the order start date, end date, status. */
  function PhaseChanges(n: PhaseName, a: Phase, b: Phase): seq<FieldChange> {
    (if Differs(a, b, StartDateField) then [FieldChange(n, StartDateField)] else []) +
    (if Differs(a, b, EndDateField) then [FieldChange(n, EndDateField)] else []) +
    (if Differs(a, b, StatusField) then [FieldChange(n, StatusField)] else [])
  }

  lemma PhaseChangesMembers(n: PhaseName, a: Phase, b: Phase, c: FieldChange)
    ensures c in PhaseChanges(n, a, b) <==> c.phase == n && Differs(a, b, c.field)
  {
  }

  /** What the comparison records for one phase. */
  function ComparePhase(n: PhaseName, a: Option<Phase>, b: Option<Phase>): Comparison {
    if a.None? && b.Some? then Comparison([n], [], [])
    else if a.Some? && b.None? then Comparison([], [n], [])
    else if a.Some? && b.Some? then Comparison([], [], PhaseChanges(n, a.value, b.value))
    else NoDifferences
  }

  function Combine(c: Comparison, d: Comparison): Comparison {
    Comparison(c.added + d.added, c.removed + d.removed, c.changed + d.changed)
  }

  /** The comparison of two phase sets over the phases `names`, in that order. */
  function CompareOver(names: seq<PhaseName>, ph1: PlanPhases, ph2: PlanPhases): Comparison {
    if names == [] then NoDifferences
    else
      var n := names[|names| - 1];
      Combine(CompareOver(names[..|names| - 1], ph1, ph2), ComparePhase(n, ph1.Get(n), ph2.Get(n)))
  }

  /** The body of the `comparePlans` loop for one phase: the texts it pushes. */
  method DiffPhase(n: PhaseName, a: Option<Phase>, b: Option<Phase>) returns (d: ComparisonText)
    ensures d == Render(ComparePhase(n, a, b))
  {
    d := ComparisonText([], [], []);
    if a.None? && b.Some? {
      d := d.(added := [PhaseKey(n)]);
    } else if a.Some? && b.None? {
      d := d.(removed := [PhaseKey(n)]);
    } else if a.Some? && b.Some? {
      var changed := ChangedPaths(n, a.value, b.value);
      d := d.(changed := changed);
    }
  }

  /** The `changed` texts pushed for a phase present in both plans. */
  method ChangedPaths(n: PhaseName, a: Phase, b: Phase) returns (changed: seq<string>)
    ensures changed == Seqs.Map(PhaseChanges(n, a, b), FieldPath)
  {
    changed := [];
    ghost var found: seq<FieldChange> := [];
    if a.startDate != b.startDate {
      Seqs.MapSnoc(found, FieldChange(n, StartDateField), FieldPath);
      changed, found := changed + [FieldPath(FieldChange(n, StartDateField))], found + [FieldChange(n, StartDateField)];
    }
    assert changed == Seqs.Map(found, FieldPath);
    if a.endDate != b.endDate {
      Seqs.MapSnoc(found, FieldChange(n, EndDateField), FieldPath);
      changed, found := changed + [FieldPath(FieldChange(n, EndDateField))], found + [FieldChange(n, EndDateField)];
    }
    assert changed == Seqs.Map(found, FieldPath);
    if a.status != b.status {
      Seqs.MapSnoc(found, FieldChange(n, StatusField), FieldPath);
      changed, found := changed + [FieldPath(FieldChange(n, StatusField))], found + [FieldChange(n, StatusField)];
    }
    assert found == PhaseChanges(n, a, b);
  }

  /** The loop of `comparePlans` over the five phases, pushing text as it goes. */
  method ComparePhaseSets(ph1: PlanPhases, ph2: PlanPhases) returns (r: ComparisonText)
    ensures r == Render(CompareOver(AllPhases, ph1, ph2))
  {
    r := ComparisonText([], [], []);
    var i := 0;
    while i < |AllPhases|
      invariant 0 <= i <= |AllPhases|
      invariant r == Render(CompareOver(AllPhases[..i], ph1, ph2))
    {
      var n := AllPhases[i];
      var d := DiffPhase(n, ph1.Get(n), ph2.Get(n));
      ghost var before := CompareOver(AllPhases[..i], ph1, ph2);
      ghost var step := ComparePhase(n, ph1.Get(n), ph2.Get(n));
      assert AllPhases[..i + 1][..i] == AllPhases[..i];
      assert CompareOver(AllPhases[..i + 1], ph1, ph2) == Combine(before, step);
      Seqs.MapAppend(before.added, step.added, PhaseKey);
      Seqs.MapAppend(before.removed, step.removed, PhaseKey);
      Seqs.MapAppend(before.changed, step.changed, FieldPath);
      r := ComparisonText(r.added + d.added, r.removed + d.removed, r.changed + d.changed);
      i := i + 1;
    }
    assert AllPhases[..5] == AllPhases;
  }

  /** `comparePlans`: three empty lists when either id is missing, otherwise the phase comparison
      of the first plan with each id. */
  method ComparePlans(plans: seq<Plan>, id1: string, id2: string) returns (r: ComparisonText)
    ensures (forall p :: p in plans ==> p.id != id1) || (forall p :: p in plans ==> p.id != id2) ==>
              r == ComparisonText([], [], [])
    ensures forall p1, p2 :: Seqs.Find(plans, (p: Plan) => p.id == id1) == Some(p1) &&
                             Seqs.Find(plans, (p: Plan) => p.id == id2) == Some(p2) ==>
                               r == Render(CompareOver(AllPhases, p1.phases, p2.phases))
  {
    var plan1 := Seqs.Find(plans, (p: Plan) => p.id == id1);
    var plan2 := Seqs.Find(plans, (p: Plan) => p.id == id2);
    if plan1.None? || plan2.None? {
      return ComparisonText([], [], []);
    }
    r := ComparePhaseSets(plan1.value.phases, plan2.value.phases);
  }

  /** A plan compared with itself, or two plans with equal phases, shows no difference. */
  lemma {:induction false} CompareSame(names: seq<PhaseName>, ph: PlanPhases)
    ensures CompareOver(names, ph, ph) == NoDifferences
  {
    if names != [] { CompareSame(names[..|names| - 1], ph); }
  }

  /** A phase is reported added exactly when it is one of the compared phases, absent from the
      first plan and present in the second; removed is the mirror image; a change is reported
      exactly for a compared phase present in both plans whose start date, end date or status
      differ. */
  lemma {:induction false} CompareMembers(names: seq<PhaseName>, ph1: PlanPhases, ph2: PlanPhases, n: PhaseName, f: ComparedField)
    ensures n in CompareOver(names, ph1, ph2).added <==> n in names && ph1.Get(n).None? && ph2.Get(n).Some?
    ensures n in CompareOver(names, ph1, ph2).removed <==> n in names && ph1.Get(n).Some? && ph2.Get(n).None?
    ensures FieldChange(n, f) in CompareOver(names, ph1, ph2).changed <==>
      n in names && ph1.Get(n).Some? && ph2.Get(n).Some? && Differs(ph1.Get(n).value, ph2.Get(n).value, f)
  {
    if names != [] {
      var init, m := names[..|names| - 1], names[|names| - 1];
      CompareMembers(init, ph1, ph2, n, f);
      assert names == init + [m];
      if ph1.Get(m).Some? && ph2.Get(m).Some? {
        PhaseChangesMembers(m, ph1.Get(m).value, ph2.Get(m).value, FieldChange(n, f));
      }
    }
  }

  /** The two-plan view: swapping the plans swaps added and removed. */
  lemma {:induction false} CompareSwap(names: seq<PhaseName>, ph1: PlanPhases, ph2: PlanPhases)
    ensures CompareOver(names, ph2, ph1).added == CompareOver(names, ph1, ph2).removed
    ensures CompareOver(names, ph2, ph1).removed == CompareOver(names, ph1, ph2).added
  {
    if names != [] { CompareSwap(names[..|names| - 1], ph1, ph2); }
  }
}
