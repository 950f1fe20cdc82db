/** The records the project store holds: capabilities with their milestone snapshots,
    milestones, plans with their phases and history, users and notifications.
    A JavaScript property that may be absent is an `Option`. */
module Types {
  import opened Wrappers

  /** `{id, name, date}`: a copy of a milestone taken when a capability is saved. */
  datatype MilestoneRef = MilestoneRef(id: string, name: string, date: string)

  datatype Lead = Lead(name: string, avatar: Option<string>)

  datatype Capability = Capability(
    id: string,
    name: string,
    workstream: string,
    workstreamLead: Lead,
    sme: string,
    ba: string,
    technicalMilestone: Option<MilestoneRef>,
    businessMilestone: Option<MilestoneRef>,
    status: string,
    rag: string,
    notes: Option<string>)

  datatype MilestoneType = Technical | Business

  datatype Milestone = Milestone(
    id: string,
    name: string,
    date: string,
    milestoneType: MilestoneType,
    description: string,
    status: string)

  /** The fixed phase set, in delivery order. */
  datatype PhaseName = Requirements | Design | Development | Cst | Uat

  /** The property name of a phase inside `phases`. */
  function PhaseKey(n: PhaseName): string {
    match n
    case Requirements => "requirements"
    case Design => "design"
    case Development => "development"
    case Cst => "cst"
    case Uat => "uat"
  }

  /** All five phases in the order the comparison walks them. */
  const AllPhases: seq<PhaseName> := [Requirements, Design, Development, Cst, Uat]

  /** `progress` is a number in stored plans; the plan form's number input writes its raw text. */
  datatype Progress = Percent(percent: int) | Typed(text: string)

  /** A phase object. Every property may be missing: a phase built by spreading an update onto
      an absent phase holds only the update's properties. */
  datatype Phase = Phase(
    startDate: Option<string>,
    endDate: Option<string>,
    status: Option<string>,
    progress: Option<Progress>,
    notes: Option<string>,
    assignedTo: Option<string>)

  /** `{...prev, ...u}` for phase objects: a property of `u` wins, an absent `prev` adds nothing. */
  function OverlayPhase(prev: Option<Phase>, u: Phase): (r: Phase)
    ensures prev.None? ==> r == u
    ensures prev.Some? && u == Phase(None, None, None, None, None, None) ==> r == prev.value
  {
    match prev
    case None => u
    case Some(p) =>
      Phase(
        if u.startDate.Some? then u.startDate else p.startDate,
        if u.endDate.Some? then u.endDate else p.endDate,
        if u.status.Some? then u.status else p.status,
        if u.progress.Some? then u.progress else p.progress,
        if u.notes.Some? then u.notes else p.notes,
        if u.assignedTo.Some? then u.assignedTo else p.assignedTo)
  }

  /** `requirements` and `design` are optional; the other three are always there. */
  datatype PlanPhases = PlanPhases(
    requirements: Option<Phase>,
    design: Option<Phase>,
    development: Phase,
    cst: Phase,
    uat: Phase)
  {
    /** `phases[n]`. */
    function Get(n: PhaseName): Option<Phase> {
      match n
      case Requirements => requirements
      case Design => design
      case Development => Some(development)
      case Cst => Some(cst)
      case Uat => Some(uat)
    }

    /** `{...phases, [n]: ph}`. */
    function With(n: PhaseName, ph: Phase): (r: PlanPhases)
      ensures r.Get(n) == Some(ph)
      ensures forall m :: m != n ==> r.Get(m) == Get(m)
    {
      match n
      case Requirements => this.(requirements := Some(ph))
      case Design => this.(design := Some(ph))
      case Development => this.(development := ph)
      case Cst => this.(cst := ph)
      case Uat => this.(uat := ph)
    }
  }

  datatype PlanType = Aspirational | Implementation

  datatype PlanStatus = Draft | Active | Completed

  datatype Metadata = Metadata(createdBy: string, lastUpdatedBy: string)

  datatype Approval = Approval(approvedBy: string, approvedAt: string, comments: Option<string>)

  datatype Action = Created | Updated | Approved | StatusChanged

  /** The `oldValue` / `newValue` of a recorded change: whatever property value was there. */
  datatype Value =
    | Text(text: string)
    | Number(number: int)
    | TypeValue(planType: PlanType)
    | StatusValue(status: PlanStatus)
    | PhasesValue(phases: PlanPhases)
    | MetadataValue(metadata: Metadata)
    | ApprovalValue(approval: Option<Approval>)
    | HistoryValue(history: seq<HistoryEntry>)
    | PhaseValue(phase: Option<Phase>)

  datatype Change = Change(field: string, oldValue: Value, newValue: Value)

  datatype HistoryEntry = HistoryEntry(
    id: string,
    timestamp: string,
    action: Action,
    userId: string,
    changes: seq<Change>)

  datatype Plan = Plan(
    id: string,
    capabilityId: string,
    planType: PlanType,
    version: int,
    createdAt: string,
    updatedAt: string,
    status: PlanStatus,
    phases: PlanPhases,
    metadata: Metadata,
    approval: Option<Approval>,
    history: seq<HistoryEntry>)

  /** `'admin' | 'manager' | 'user'`. */
  datatype Role = Admin | Manager | StandardUser

  datatype User = User(id: string, name: string, email: string, role: Role, avatar: Option<string>)

  datatype NotificationType = PlanCreated | PlanUpdated | PlanApproved | PhaseStarted | PhaseCompleted

  datatype NotificationLinks = NotificationLinks(
    planId: Option<string>,
    capabilityId: Option<string>,
    phase: Option<string>)

  datatype Notification = Notification(
    id: string,
    notificationType: NotificationType,
    title: string,
    message: string,
    createdAt: string,
    read: bool,
    metadata: NotificationLinks)
}
