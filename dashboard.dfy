/** The dashboard's key metrics, counted over the capabilities of the chosen workstream. */
module Dashboard {
  import opened Types
  import Seqs
  import ProjectStore

  /** The workstream selector's value that shows every capability. */
  const AllWorkstreams := "all"

  /** `filteredCapabilities`: every capability under `all`, else those of the workstream. */
  function FilteredCapabilities(caps: seq<Capability>, workstream: string): seq<Capability> {
    if workstream == AllWorkstreams then caps
    else Seqs.Filter(caps, (c: Capability) => c.workstream == workstream)
  }

  /** The list keeps store order and holds exactly the capabilities of the chosen workstream;
      under `all` it is the store's list itself. */
  lemma FilteredCapabilitiesFacts(caps: seq<Capability>, workstream: string)
    ensures workstream == AllWorkstreams ==> FilteredCapabilities(caps, workstream) == caps
    ensures Seqs.SubsequenceOf(FilteredCapabilities(caps, workstream), caps)
    ensures workstream != AllWorkstreams ==>
      forall c :: c in FilteredCapabilities(caps, workstream) <==> c in caps && c.workstream == workstream
  {
    if workstream == AllWorkstreams {
      SubsequenceOfSelf(caps);
    } else {
      Seqs.FilterIsSubsequence(caps, (c: Capability) => c.workstream == workstream);
    }
  }

  lemma {:induction false} SubsequenceOfSelf(s: seq<Capability>)
    ensures Seqs.SubsequenceOf(s, s)
  {
    if s != [] { SubsequenceOfSelf(s[1..]); }
  }

  /** `filteredStats`. */
  datatype FilteredStats = FilteredStats(total: nat, inProgress: nat, atRisk: nat, overdue: nat, completed: nat)

  /** `filter(c => c.rag === 'Red').length`: overdue is read off the RAG, whatever the status. */
  function RedCount(caps: seq<Capability>): nat {
    Seqs.Count(caps, (c: Capability) => c.rag == "Red")
  }

  function Stats(caps: seq<Capability>, workstream: string): FilteredStats {
    var f := FilteredCapabilities(caps, workstream);
    FilteredStats(|f|, ProjectStore.StatusCount(f, "In Progress"), ProjectStore.StatusCount(f, "At Risk"),
                  RedCount(f), ProjectStore.StatusCount(f, "Completed"))
  }

  /** The three status counts exclude each other and never exceed the total; the overdue count
      never exceeds it either. */
  lemma StatsBounded(caps: seq<Capability>, workstream: string)
    ensures var s := Stats(caps, workstream);
      s.total == |FilteredCapabilities(caps, workstream)| &&
      s.inProgress + s.atRisk + s.completed <= s.total && s.overdue <= s.total
  {
    var f := FilteredCapabilities(caps, workstream);
    Seqs.CountDisjoint3(f, (c: Capability) => c.status == "In Progress",
                           (c: Capability) => c.status == "Completed",
                           (c: Capability) => c.status == "At Risk");
  }

  /** Under `all` the four shared counts are the store's `getCapabilitiesStats`, and the
      overdue count is the number of red capabilities in the store. */
  lemma AllMatchesStore(caps: seq<Capability>)
    ensures var s := Stats(caps, AllWorkstreams);
      var g := ProjectStore.CapabilityStats(caps);
      s.total == g.total && s.inProgress == g.inProgress && s.atRisk == g.atRisk &&
      s.completed == g.completed && s.overdue == RedCount(caps)
  {
  }

  /** A single workstream never shows more than the whole store. */
  lemma WorkstreamWithinAll(caps: seq<Capability>, workstream: string)
    ensures var s, a := Stats(caps, workstream), Stats(caps, AllWorkstreams);
      s.total <= a.total && s.inProgress <= a.inProgress && s.atRisk <= a.atRisk &&
      s.overdue <= a.overdue && s.completed <= a.completed
  {
    if workstream != AllWorkstreams {
      var w := (c: Capability) => c.workstream == workstream;
      Seqs.CountWithinFilter(caps, w, (c: Capability) => c.status == "In Progress");
      Seqs.CountWithinFilter(caps, w, (c: Capability) => c.status == "At Risk");
      Seqs.CountWithinFilter(caps, w, (c: Capability) => c.status == "Completed");
      Seqs.CountWithinFilter(caps, w, (c: Capability) => c.rag == "Red");
    }
  }
}
