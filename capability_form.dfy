/** The form that adds or edits a capability: the values it starts from, and the record it
    saves, whose milestones are copies taken from the milestone list of the matching type. */
module CapabilityForm {
  import opened Wrappers
  import opened Types
  import Seqs
  import Records
  import ProjectStore

  /** The form's fields; a milestone is chosen by its id. */
  datatype FormData = FormData(
    name: string,
    workstream: string,
    workstreamLead: string,
    sme: string,
    ba: string,
    technicalMilestone: string,
    businessMilestone: string,
    status: string,
    rag: string,
    notes: string)

  /** `s || fallback` on a text: an empty text gives the fallback. */
  function Or(s: string, fallback: string): string {
    if s != "" then s else fallback
  }

  function MilestoneIdOf(m: Option<MilestoneRef>): string {
    if m.Some? then m.value.id else ""
  }

  /** The initial `formData`. A new form has status `Not Started`, RAG `Green` and every other
      field empty; an edit form shows the capability's fields and its milestones' ids, with the
      same defaults in place of an empty status or RAG. */
  function InitialFormData(existing: Option<Capability>): (f: FormData)
    ensures existing.None? ==>
      (f.status == "Not Started" && f.rag == "Green" &&
       f.name == f.workstream == f.workstreamLead == f.sme == f.ba == f.technicalMilestone ==
       f.businessMilestone == f.notes == "")
    ensures existing.Some? ==>
      var c := existing.value;
      f.name == c.name && f.workstream == c.workstream && f.workstreamLead == c.workstreamLead.name &&
      f.sme == c.sme && f.ba == c.ba &&
      (c.technicalMilestone.Some? ==> f.technicalMilestone == c.technicalMilestone.value.id) &&
      (c.technicalMilestone.None? ==> f.technicalMilestone == "") &&
      (c.businessMilestone.Some? ==> f.businessMilestone == c.businessMilestone.value.id) &&
      (c.businessMilestone.None? ==> f.businessMilestone == "") &&
      (c.status != "" ==> f.status == c.status) && (c.status == "" ==> f.status == "Not Started") &&
      (c.rag != "" ==> f.rag == c.rag) && (c.rag == "" ==> f.rag == "Green") &&
      (c.notes.Some? ==> f.notes == c.notes.value) && (c.notes.None? ==> f.notes == "")
  {
    match existing
    case None => FormData("", "", "", "", "", "", "", "Not Started", "Green", "")
    case Some(c) =>
      FormData(c.name, c.workstream, c.workstreamLead.name, c.sme, c.ba,
               MilestoneIdOf(c.technicalMilestone), MilestoneIdOf(c.businessMilestone),
               Or(c.status, "Not Started"), Or(c.rag, "Green"), c.notes.GetOr(""))
  }

  /** `{id, name, date}`: the copy of a milestone a capability keeps. */
  function Snapshot(m: Milestone): MilestoneRef {
    MilestoneRef(m.id, m.name, m.date)
  }

  predicate HasId(m: Milestone, id: string) {
    m.id == id
  }

  /** `milestonesOfType.find(m => m.id === id)`, copied. */
  function ChosenMilestone(ms: seq<Milestone>, t: MilestoneType, id: string): Option<MilestoneRef> {
    var found := Seqs.Find(Records.OfType(ms, t), (m: Milestone) => HasId(m, id));
    if found.Some? then Some(Snapshot(found.value)) else None
  }

  /** The chosen milestone is absent exactly when no milestone of that type has the id; otherwise
      it is the copy of the first such milestone in store order. A milestone of the other type
      never qualifies. */
  lemma ChosenMilestoneFacts(ms: seq<Milestone>, t: MilestoneType, id: string)
    ensures var r := ChosenMilestone(ms, t, id);
      r.None? <==> forall m :: m in ms ==> !(m.milestoneType == t && m.id == id)
    ensures var r := ChosenMilestone(ms, t, id);
      r.Some? ==> exists m :: m in ms && m.milestoneType == t && m.id == id && r.value == MilestoneRef(m.id, m.name, m.date)
    ensures var r := ChosenMilestone(ms, t, id);
      var candidates := Records.OfType(ms, t);
      r.Some? ==> exists i :: 0 <= i < |candidates| && r.value == Snapshot(candidates[i]) &&
                              candidates[i].id == id && forall j :: 0 <= j < i ==> candidates[j].id != id
  {
    var candidates := Records.OfType(ms, t);
    var found := Seqs.Find(candidates, (m: Milestone) => HasId(m, id));
    if found.Some? {
      assert found.value in candidates;
    }
  }

  /** `capabilityData`: the form's texts, the lead rebuilt as `{name}` alone (an avatar the
      capability had is not kept), and the milestones copied from the lists of their type. */
  function CapabilityData(form: FormData, ms: seq<Milestone>): Capability {
    Capability("", form.name, form.workstream, Lead(form.workstreamLead, None), form.sme, form.ba,
               ChosenMilestone(ms, Technical, form.technicalMilestone),
               ChosenMilestone(ms, Business, form.businessMilestone),
               form.status, form.rag, Some(form.notes))
  }

  /** The same data as an update: every property but `id`, the milestones set even when
      `undefined`. */
  function DataPatch(data: Capability): Records.CapabilityPatch {
    Records.CapabilityPatch(None, Some(data.name), Some(data.workstream), Some(data.workstreamLead),
                            Some(data.sme), Some(data.ba), Some(data.technicalMilestone),
                            Some(data.businessMilestone), Some(data.status), Some(data.rag), Some(data.notes))
  }

  /** Saving over a capability replaces every field but its id; in particular a milestone the
      form no longer finds is cleared and the lead's avatar is dropped. */
  lemma SaveReplacesAllButId(c: Capability, form: FormData, ms: seq<Milestone>)
    ensures var saved := Records.OverlayCapability(c, DataPatch(CapabilityData(form, ms)));
      saved == CapabilityData(form, ms).(id := c.id) &&
      saved.workstreamLead.avatar.None? &&
      (saved.technicalMilestone.None? <==> forall m :: m in ms ==> !(m.milestoneType == Technical && m.id == form.technicalMilestone))
  {
    ChosenMilestoneFacts(ms, Technical, form.technicalMilestone);
  }

  /** `handleSubmit`: one store call, an update of the edited capability or an addition under
      a new id. */
  method HandleSubmit(store: ProjectStore.Store, existing: Option<Capability>, form: FormData, newId: string)
    modifies store`capabilities
    ensures var data := CapabilityData(form, store.milestones);
      existing.None? ==> store.capabilities == old(store.capabilities) + [data.(id := newId)]
    ensures var data := CapabilityData(form, store.milestones);
      existing.Some? ==>
        |store.capabilities| == |old(store.capabilities)| &&
        forall i :: 0 <= i < |old(store.capabilities)| ==>
          store.capabilities[i] ==
            if old(store.capabilities)[i].id == existing.value.id then data.(id := existing.value.id)
            else old(store.capabilities)[i]
  {
    var data := CapabilityData(form, store.milestones);
    if existing.Some? {
      ghost var before := store.capabilities;
      store.UpdateCapability(existing.value.id, DataPatch(data));
      Records.UpdateByIdEffect(before, Records.CapabilityId, existing.value.id,
                               c => Records.OverlayCapability(c, DataPatch(data)));
      forall i | 0 <= i < |before| && before[i].id == existing.value.id
        ensures store.capabilities[i] == data.(id := existing.value.id)
      {
        SaveReplacesAllButId(before[i], form, store.milestones);
      }
    } else {
      store.AddCapability(data, newId);
    }
  }
}
