/** The project store: one object whose collections every action replaces, and the selectors
    that read them. Ids (`uuidv4()`) and the clock (`new Date().toISOString()`) are passed in. */
module ProjectStore {
  import opened Wrappers
  import opened Types
  import Seqs
  import Records
  import Plans

  // ---------------------------------------------------------------- the initial state

  const SeedCapability := Capability(
    "1", "Customer Portal Enhancement", "Frontend Development",
    Lead("Sarah Chen", Some("/avatars/sarah.jpg")), "Mike Johnson", "Lisa Wang",
    Some(MilestoneRef("1", "UI Framework Complete", "Jan 20, 2025")),
    Some(MilestoneRef("1", "User Acceptance", "Feb 15, 2025")),
    "In Progress", "Amber", Some("UI framework development on track"))

  const SeedMilestone := Milestone(
    "1", "API Development Complete", "2025-02-15", Technical,
    "Core API endpoints development and testing completed", "In Progress")

  const SeedUsers := [
    User("1", "Sarah Chen", "sarah.chen@example.com", Manager, Some("/avatars/sarah.jpg")),
    User("2", "David Rodriguez", "david.rodriguez@example.com", StandardUser, Some("/avatars/david.jpg"))]

  // ---------------------------------------------------------------- selectors on values

  datatype Stats = Stats(total: nat, inProgress: nat, completed: nat, atRisk: nat)

  /** `capabilities.filter(c => c.status === status).length`. */
  function StatusCount(caps: seq<Capability>, status: string): nat {
    Seqs.Count(caps, (c: Capability) => c.status == status)
  }

  /** `getCapabilitiesStats`. */
  function CapabilityStats(caps: seq<Capability>): Stats {
    Stats(|caps|, StatusCount(caps, "In Progress"), StatusCount(caps, "Completed"), StatusCount(caps, "At Risk"))
  }

  /** The three counted statuses exclude each other, so together they never exceed the total;
      a capability with any other status (such as `Not Started`) is in none of them. */
  lemma StatsBounded(caps: seq<Capability>)
    ensures var s := CapabilityStats(caps);
      s.inProgress + s.completed + s.atRisk <= s.total
  {
    Seqs.CountDisjoint3(caps, (c: Capability) => c.status == "In Progress",
                              (c: Capability) => c.status == "Completed",
                              (c: Capability) => c.status == "At Risk");
  }

  /** A milestone is in use by a capability when either snapshot carries its id. */
  predicate UsesMilestone(c: Capability, milestoneId: string) {
    (c.technicalMilestone.Some? && c.technicalMilestone.value.id == milestoneId) ||
    (c.businessMilestone.Some? && c.businessMilestone.value.id == milestoneId)
  }

  /** `getUsageCount`. */
  function UsageCount(caps: seq<Capability>, milestoneId: string): nat {
    Seqs.Count(caps, (c: Capability) => UsesMilestone(c, milestoneId))
  }

  /** The usage count never exceeds the number of capabilities; it is the capabilities with a
      technical snapshot of the milestone plus those with a business one, a capability with
      both counted once; it is zero exactly when no capability refers to the milestone. */
  lemma UsageCountFacts(caps: seq<Capability>, milestoneId: string)
    ensures UsageCount(caps, milestoneId) <= |caps|
    ensures UsageCount(caps, milestoneId) +
            Seqs.Count(caps, (c: Capability) => c.technicalMilestone.Some? && c.technicalMilestone.value.id == milestoneId &&
                                                c.businessMilestone.Some? && c.businessMilestone.value.id == milestoneId) ==
            Seqs.Count(caps, (c: Capability) => c.technicalMilestone.Some? && c.technicalMilestone.value.id == milestoneId) +
            Seqs.Count(caps, (c: Capability) => c.businessMilestone.Some? && c.businessMilestone.value.id == milestoneId)
    ensures UsageCount(caps, milestoneId) == 0 <==> forall c :: c in caps ==> !UsesMilestone(c, milestoneId)
  {
    Seqs.CountUnion(caps,
      (c: Capability) => c.technicalMilestone.Some? && c.technicalMilestone.value.id == milestoneId,
      (c: Capability) => c.businessMilestone.Some? && c.businessMilestone.value.id == milestoneId,
      (c: Capability) => c.technicalMilestone.Some? && c.technicalMilestone.value.id == milestoneId &&
                         c.businessMilestone.Some? && c.businessMilestone.value.id == milestoneId,
      (c: Capability) => UsesMilestone(c, milestoneId));
    var f := Seqs.Filter(caps, (c: Capability) => UsesMilestone(c, milestoneId));
    if f != [] { assert f[0] in f; }
  }

  /** `getUnreadNotifications`. */
  function Unread(ns: seq<Notification>): seq<Notification> {
    Seqs.Filter(ns, (n: Notification) => !n.read)
  }

  function MarkRead(n: Notification): Notification {
    n.(read := true)
  }

  /** `markAllNotificationsRead` on the list. */
  function MarkAllRead(ns: seq<Notification>): seq<Notification> {
    Seqs.Map(ns, MarkRead)
  }

  /** `markNotificationRead` on the list. */
  function MarkReadById(ns: seq<Notification>, id: string): seq<Notification> {
    Records.UpdateById(ns, Records.NotificationId, id, MarkRead)
  }

  /** After marking all read nothing is unread, and the list is otherwise the same. */
  lemma {:induction false} MarkAllReadFacts(ns: seq<Notification>)
    ensures Unread(MarkAllRead(ns)) == []
    ensures |MarkAllRead(ns)| == |ns|
    ensures forall i :: 0 <= i < |ns| ==> MarkAllRead(ns)[i] == ns[i].(read := true)
  {
    if ns != [] {
      MarkAllReadFacts(ns[1..]);
      assert MarkAllRead(ns)[1..] == MarkAllRead(ns[1..]);
    }
  }

  /** Marking one id read leaves exactly the other unread notifications unread, in order. */
  lemma {:induction false} MarkReadByIdUnread(ns: seq<Notification>, id: string)
    ensures Unread(MarkReadById(ns, id)) == Seqs.Filter(ns, (n: Notification) => !n.read && n.id != id)
  {
    if ns != [] {
      MarkReadByIdUnread(ns[1..], id);
      var r := MarkReadById(ns, id);
      Records.UpdateByIdEffect(ns, Records.NotificationId, id, MarkRead);
      assert r[1..] == MarkReadById(ns[1..], id);
    }
  }

  /** `addNotification`: the new notification goes to the front, unread. */
  function NewNotification(n: Notification, id: string, now: string): Notification {
    n.(id := id, createdAt := now, read := false)
  }

  /** A notification just added is the first unread one. */
  lemma NewNotificationUnread(ns: seq<Notification>, n: Notification, id: string, now: string)
    ensures Unread([NewNotification(n, id, now)] + ns) == [NewNotification(n, id, now)] + Unread(ns)
  {
    assert ([NewNotification(n, id, now)] + ns)[1..] == ns;
  }

  /** The initial state: one capability, one milestone, no plans, two users, no notifications,
      the current user `1`; its capability counts as in progress and already refers to the
      seeded milestone's id through both snapshots. */
  lemma SeedFacts()
    ensures CapabilityStats([SeedCapability]) == Stats(1, 1, 0, 0)
    ensures UsageCount([SeedCapability], SeedMilestone.id) == 1
    ensures Records.UniqueIds(SeedUsers, Records.UserId)
  {
    assert Seqs.Filter([SeedCapability], (c: Capability) => c.status == "In Progress") == [SeedCapability];
    assert Seqs.Filter([SeedCapability], (c: Capability) => UsesMilestone(c, SeedMilestone.id)) == [SeedCapability];
  }

  // ---------------------------------------------------------------- the store

  class Store {
    var capabilities: seq<Capability>
    var milestones: seq<Milestone>
    var plans: seq<Plan>
    var users: seq<User>
    var notifications: seq<Notification>
    var currentUser: string

    constructor ()
      ensures capabilities == [SeedCapability] && milestones == [SeedMilestone] && plans == []
      ensures users == SeedUsers && notifications == [] && currentUser == "1"
    {
      capabilities := [SeedCapability];
      milestones := [SeedMilestone];
      plans := [];
      users := SeedUsers;
      notifications := [];
      currentUser := "1";
    }

    // -------------------------------------------------------------- capability actions

    /** `addCapability`: appended under a new id, whatever id the record carried. */
    method AddCapability(c: Capability, newId: string)
      modifies this`capabilities
      ensures capabilities == old(capabilities) + [c.(id := newId)]
    {
      capabilities := capabilities + [c.(id := newId)];
    }

    method UpdateCapability(id: string, patch: Records.CapabilityPatch)
      modifies this`capabilities
      ensures capabilities == Records.UpdateById(old(capabilities), Records.CapabilityId, id,
                                                 c => Records.OverlayCapability(c, patch))
    {
      capabilities := Records.UpdateById(capabilities, Records.CapabilityId, id,
                                         c => Records.OverlayCapability(c, patch));
    }

    method DeleteCapability(id: string)
      modifies this`capabilities
      ensures capabilities == Records.DeleteById(old(capabilities), Records.CapabilityId, id)
    {
      capabilities := Records.DeleteById(capabilities, Records.CapabilityId, id);
    }

    // -------------------------------------------------------------- milestone actions

    method AddMilestone(m: Milestone, newId: string)
      modifies this`milestones
      ensures milestones == old(milestones) + [m.(id := newId)]
    {
      milestones := milestones + [m.(id := newId)];
    }

    /** Updating a milestone leaves the capabilities' snapshots of it as they were. */
    method UpdateMilestone(id: string, patch: Records.MilestonePatch)
      modifies this`milestones
      ensures milestones == Records.UpdateById(old(milestones), Records.MilestoneId, id,
                                               m => Records.OverlayMilestone(m, patch))
      ensures capabilities == old(capabilities)
    {
      milestones := Records.UpdateById(milestones, Records.MilestoneId, id,
                                       m => Records.OverlayMilestone(m, patch));
    }

    /** Deleting a milestone leaves the capabilities that refer to it, and their usage counts,
        as they were. */
    method DeleteMilestone(id: string)
      modifies this`milestones
      ensures milestones == Records.DeleteById(old(milestones), Records.MilestoneId, id)
      ensures capabilities == old(capabilities)
    {
      milestones := Records.DeleteById(milestones, Records.MilestoneId, id);
    }

    // -------------------------------------------------------------- plan actions

    method AddPlan(input: Plans.PlanInput, newId: string, now: string)
      modifies this`plans
      ensures plans == old(plans) + [Plans.NewPlan(input, newId, now, currentUser)]
    {
      plans := plans + [Plans.NewPlan(input, newId, now, currentUser)];
    }

    method UpdatePlan(id: string, partial: seq<Plans.PlanField>, now: string, entryId: string)
      modifies this`plans
      ensures plans == Plans.UpdatePlans(old(plans), id, partial, now, currentUser, entryId)
    {
      plans := Plans.UpdatePlans(plans, id, partial, now, currentUser, entryId);
    }

    method DeletePlan(id: string)
      modifies this`plans
      ensures plans == Records.DeleteById(old(plans), Records.PlanId, id)
    {
      plans := Records.DeleteById(plans, Records.PlanId, id);
    }

    method ApprovePlan(id: string, approver: string, comments: Option<string>, now: string, entryId: string)
      modifies this`plans
      ensures plans == Plans.ApprovePlans(old(plans), id, approver, comments, now, entryId)
    {
      plans := Plans.ApprovePlans(plans, id, approver, comments, now, entryId);
    }

    method UpdatePlanPhase(planId: string, phase: PhaseName, updates: Phase, now: string, entryId: string)
      modifies this`plans
      ensures plans == Plans.UpdatePlanPhases(old(plans), planId, phase, updates, now, currentUser, entryId)
    {
      plans := Plans.UpdatePlanPhases(plans, planId, phase, updates, now, currentUser, entryId);
    }

    // -------------------------------------------------------------- plan queries

    function GetCapabilityPlans(capabilityId: string): seq<Plan>
      reads this
    {
      Plans.CapabilityPlans(plans, capabilityId)
    }

    function GetLatestPlan(capabilityId: string, planType: PlanType): Option<Plan>
      reads this
    {
      Plans.LatestPlan(plans, capabilityId, planType)
    }

    function GetPlanHistory(planId: string): seq<Plans.NamedEntry>
      reads this
    {
      Plans.PlanHistory(plans, capabilities, planId)
    }

    method ComparePlans(planId1: string, planId2: string) returns (r: Plans.ComparisonText)
      ensures forall p1, p2 :: Seqs.Find(plans, (p: Plan) => p.id == planId1) == Some(p1) &&
                               Seqs.Find(plans, (p: Plan) => p.id == planId2) == Some(p2) ==>
                                 r == Plans.Render(Plans.CompareOver(AllPhases, p1.phases, p2.phases))
      ensures (forall p :: p in plans ==> p.id != planId1) || (forall p :: p in plans ==> p.id != planId2) ==>
                r == Plans.ComparisonText([], [], [])
    {
      r := Plans.ComparePlans(plans, planId1, planId2);
    }

    // -------------------------------------------------------------- users and notifications

    method AddUser(u: User, newId: string)
      modifies this`users
      ensures users == old(users) + [u.(id := newId)]
    {
      users := users + [u.(id := newId)];
    }

    method UpdateUser(id: string, patch: Records.UserPatch)
      modifies this`users
      ensures users == Records.UpdateById(old(users), Records.UserId, id, u => Records.OverlayUser(u, patch))
    {
      users := Records.UpdateById(users, Records.UserId, id, u => Records.OverlayUser(u, patch));
    }

    method AddNotification(n: Notification, newId: string, now: string)
      modifies this`notifications
      ensures notifications == [NewNotification(n, newId, now)] + old(notifications)
    {
      notifications := [NewNotification(n, newId, now)] + notifications;
    }

    method MarkNotificationRead(id: string)
      modifies this`notifications
      ensures notifications == MarkReadById(old(notifications), id)
    {
      notifications := MarkReadById(notifications, id);
    }

    method MarkAllNotificationsRead()
      modifies this`notifications
      ensures notifications == MarkAllRead(old(notifications))
    {
      notifications := MarkAllRead(notifications);
    }

    // -------------------------------------------------------------- selectors

    function GetCapabilitiesStats(): Stats
      reads this
    {
      CapabilityStats(capabilities)
    }

    function GetUnreadNotifications(): seq<Notification>
      reads this
    {
      Unread(notifications)
    }

    function GetUsageCount(milestoneId: string): nat
      reads this
    {
      UsageCount(capabilities, milestoneId)
    }
  }
}
