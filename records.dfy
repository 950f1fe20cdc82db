/** The add / update-by-id / delete-by-id shape the store uses for every collection, and the
    partial records (`Partial<T>`) that an update spreads over a stored record. */
module Records {
  import opened Wrappers
  import opened Types
  import Seqs

  /** The ids present in a collection. */
  function Ids<T(==,!new)>(s: seq<T>, key: T -> string): (r: set<string>)
    ensures forall x :: x in s ==> key(x) in r
    ensures forall id :: id in r ==> exists x :: x in s && key(x) == id
  {
    set x | x in s :: key(x)
  }

  predicate UniqueIds<T>(s: seq<T>, key: T -> string) {
    forall i, j :: 0 <= i < j < |s| ==> key(s[i]) != key(s[j])
  }

  /** `s.map(x => key(x) === id ? f(x) : x)`. */
  function UpdateById<T>(s: seq<T>, key: T -> string, id: string, f: T -> T): seq<T> {
    Seqs.MapWhere(s, x => key(x) == id, f)
  }

  /** `s.filter(x => key(x) !== id)`. */
  function DeleteById<T(==,!new)>(s: seq<T>, key: T -> string, id: string): seq<T> {
    Seqs.Filter(s, x => key(x) != id)
  }

  /** Appending a record under an id not yet in use adds exactly that id, and the ids stay unique. */
  lemma AddFresh<T(!new)>(s: seq<T>, key: T -> string, x: T)
    requires UniqueIds(s, key) && key(x) !in Ids(s, key)
    ensures UniqueIds(s + [x], key)
    ensures Ids(s + [x], key) == Ids(s, key) + {key(x)}
    ensures (s + [x])[..|s|] == s && (s + [x])[|s|] == x
  {
    assert forall i :: 0 <= i < |s| ==> s[i] in s;
  }

  /** Update keeps the length and the positions; a record without that id is left as it was,
      a record with it becomes `f` of it, and an id nobody has changes nothing. */
  lemma UpdateByIdEffect<T(!new)>(s: seq<T>, key: T -> string, id: string, f: T -> T)
    ensures |UpdateById(s, key, id, f)| == |s|
    ensures forall i :: 0 <= i < |s| && key(s[i]) != id ==> UpdateById(s, key, id, f)[i] == s[i]
    ensures forall i :: 0 <= i < |s| && key(s[i]) == id ==> UpdateById(s, key, id, f)[i] == f(s[i])
    ensures id !in Ids(s, key) ==> UpdateById(s, key, id, f) == s
  {
    if id !in Ids(s, key) {
      Seqs.MapWhereNoHit(s, x => key(x) == id, f);
    }
  }

  /** An update that does not change ids keeps them unique. */
  lemma UpdateByIdKeepsIds<T(!new)>(s: seq<T>, key: T -> string, id: string, f: T -> T)
    requires UniqueIds(s, key)
    requires forall x :: key(f(x)) == key(x)
    ensures UniqueIds(UpdateById(s, key, id, f), key)
    ensures Ids(UpdateById(s, key, id, f), key) == Ids(s, key)
  {
    var r := UpdateById(s, key, id, f);
    assert forall i :: 0 <= i < |s| ==> key(r[i]) == key(s[i]);
    forall y | y in Ids(r, key) ensures y in Ids(s, key) {
      var i :| 0 <= i < |r| && key(r[i]) == y;
      assert s[i] in s;
    }
    forall y | y in Ids(s, key) ensures y in Ids(r, key) {
      var i :| 0 <= i < |s| && key(s[i]) == y;
      assert r[i] in r;
    }
  }

  /** Delete leaves no record with that id, keeps every other record in its order, changes
      nothing for an absent id, and deleting twice is deleting once. */
  lemma DeleteByIdEffect<T(!new)>(s: seq<T>, key: T -> string, id: string)
    ensures id !in Ids(DeleteById(s, key, id), key)
    ensures forall x :: x in DeleteById(s, key, id) <==> x in s && key(x) != id
    ensures Seqs.SubsequenceOf(DeleteById(s, key, id), s)
    ensures id !in Ids(s, key) ==> DeleteById(s, key, id) == s
    ensures DeleteById(DeleteById(s, key, id), key, id) == DeleteById(s, key, id)
  {
    Seqs.FilterIsSubsequence(s, x => key(x) != id);
    Seqs.FilterKeepsAll(DeleteById(s, key, id), x => key(x) != id);
    if id !in Ids(s, key) {
      Seqs.FilterKeepsAll(s, x => key(x) != id);
    }
  }

  /** `Partial<Capability>`: `None` leaves a property out; the optional properties take
      `Some(None)` for an explicit `undefined`. */
  datatype CapabilityPatch = CapabilityPatch(
    id: Option<string>,
    name: Option<string>,
    workstream: Option<string>,
    workstreamLead: Option<Lead>,
    sme: Option<string>,
    ba: Option<string>,
    technicalMilestone: Option<Option<MilestoneRef>>,
    businessMilestone: Option<Option<MilestoneRef>>,
    status: Option<string>,
    rag: Option<string>,
    notes: Option<Option<string>>)

  /** `{...c, ...patch}`. */
  function OverlayCapability(c: Capability, patch: CapabilityPatch): Capability {
    Capability(
      patch.id.GetOr(c.id),
      patch.name.GetOr(c.name),
      patch.workstream.GetOr(c.workstream),
      patch.workstreamLead.GetOr(c.workstreamLead),
      patch.sme.GetOr(c.sme),
      patch.ba.GetOr(c.ba),
      patch.technicalMilestone.GetOr(c.technicalMilestone),
      patch.businessMilestone.GetOr(c.businessMilestone),
      patch.status.GetOr(c.status),
      patch.rag.GetOr(c.rag),
      patch.notes.GetOr(c.notes))
  }

  /** `Partial<Milestone>`. */
  datatype MilestonePatch = MilestonePatch(
    id: Option<string>,
    name: Option<string>,
    date: Option<string>,
    milestoneType: Option<MilestoneType>,
    description: Option<string>,
    status: Option<string>)

  function OverlayMilestone(m: Milestone, patch: MilestonePatch): Milestone {
    Milestone(
      patch.id.GetOr(m.id),
      patch.name.GetOr(m.name),
      patch.date.GetOr(m.date),
      patch.milestoneType.GetOr(m.milestoneType),
      patch.description.GetOr(m.description),
      patch.status.GetOr(m.status))
  }

  /** `Partial<User>`. */
  datatype UserPatch = UserPatch(
    id: Option<string>,
    name: Option<string>,
    email: Option<string>,
    role: Option<Role>,
    avatar: Option<Option<string>>)

  function OverlayUser(u: User, patch: UserPatch): User {
    User(
      patch.id.GetOr(u.id),
      patch.name.GetOr(u.name),
      patch.email.GetOr(u.email),
      patch.role.GetOr(u.role),
      patch.avatar.GetOr(u.avatar))
  }

  /** `milestones.filter(m => m.type === t)`. */
  function OfType(ms: seq<Milestone>, t: MilestoneType): seq<Milestone> {
    Seqs.Filter(ms, (m: Milestone) => m.milestoneType == t)
  }

  function CapabilityId(c: Capability): string { c.id }
  function MilestoneId(m: Milestone): string { m.id }
  function UserId(u: User): string { u.id }
  function PlanId(p: Plan): string { p.id }
  function NotificationId(n: Notification): string { n.id }
}
