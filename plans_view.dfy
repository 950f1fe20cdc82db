/** The plans timeline: its workstream and status filters, the latest plan of a capability found
    with `reduce`, the export of every capability with its latest plans, the window the timeline
    spans and the phase bars a plan gets. */
module PlansView {
  import opened Wrappers
  import opened Types
  import opened Text
  import opened Dates
  import Seqs
  import Plans
  import PlanForm

  // ---------------------------------------------------------------- filters

  /** A selection of `all` switches its test off. */
  predicate Selected(selection: string, value: string) {
    selection == "all" || value == selection
  }

  predicate Shown(c: Capability, workstream: string, status: string) {
    Selected(workstream, c.workstream) && Selected(status, c.status)
  }

  /** `filteredCapabilities`. */
  function FilteredCapabilities(caps: seq<Capability>, workstream: string, status: string): seq<Capability> {
    Seqs.Filter(caps, (c: Capability) => Shown(c, workstream, status))
  }

  /** The filtered list keeps, in order, exactly the capabilities of the chosen workstream and
      status; with both selections `all` it is the whole list. */
  lemma FilteredCapabilitiesFacts(caps: seq<Capability>, workstream: string, status: string)
    ensures Seqs.SubsequenceOf(FilteredCapabilities(caps, workstream, status), caps)
    ensures forall c :: c in FilteredCapabilities(caps, workstream, status) <==>
      c in caps && (workstream == "all" || c.workstream == workstream) && (status == "all" || c.status == status)
    ensures workstream == "all" && status == "all" ==> FilteredCapabilities(caps, workstream, status) == caps
  {
    Seqs.FilterIsSubsequence(caps, (c: Capability) => Shown(c, workstream, status));
    if workstream == "all" && status == "all" {
      Seqs.FilterKeepsAll(caps, (c: Capability) => Shown(c, workstream, status));
    }
  }

  // ---------------------------------------------------------------- latest plan by reduce

  /** `rest.reduce((latest, current) => current.version > latest.version ? current : latest, acc)`. */
  function ReduceLatest(acc: Plan, rest: seq<Plan>): Plan
    decreases |rest|
  {
    if rest == [] then acc
    else ReduceLatest(if rest[0].version > acc.version then rest[0] else acc, rest[1..])
  }

  /** The view's own `getLatestPlan`: the matching plans reduced from the first one. */
  function LatestPlan(plans: seq<Plan>, capabilityId: string, t: PlanType): Option<Plan> {
    var m := Plans.MatchingPlans(plans, capabilityId, t);
    if |m| > 0 then Some(ReduceLatest(m[0], m[1..])) else None
  }

  /** The reduce keeps the first plan of maximal version: it replaces only on a strictly
      greater version. */
  lemma {:induction false} ReduceLatestIsFirstMax(acc: Plan, rest: seq<Plan>)
    ensures ReduceLatest(acc, rest) == Plans.FirstMax([acc] + rest)
    decreases |rest|
  {
    if rest == [] {
      assert Plans.FirstMaxIndex([acc]) == 0;
    } else {
      var next := if rest[0].version > acc.version then rest[0] else acc;
      ReduceLatestIsFirstMax(next, rest[1..]);
      ReduceStep(acc, rest);
    }
  }

  /** One step of the reduce keeps the first maximum of the plans seen and still to come. */
  lemma ReduceStep(acc: Plan, rest: seq<Plan>)
    requires rest != []
    ensures Plans.FirstMax([acc] + rest) ==
      Plans.FirstMax([if rest[0].version > acc.version then rest[0] else acc] + rest[1..])
  {
    if rest[0].version > acc.version {
      assert [rest[0]] + rest[1..] == rest;
      PassOlder(acc, rest);
    } else {
      DropNoNewer(acc, rest[0], rest[1..]);
      assert [acc, rest[0]] + rest[1..] == [acc] + rest;
    }
  }

  /** A first plan older than the next one is not the first maximum. */
  lemma PassOlder(acc: Plan, rest: seq<Plan>)
    requires rest != [] && rest[0].version > acc.version
    ensures Plans.FirstMax([acc] + rest) == Plans.FirstMax(rest)
  {
    var s := [acc] + rest;
    assert s[1..] == rest;
    var k := Plans.FirstMaxIndex(rest);
    assert Plans.FirstMaxIndex(s) == k + 1;
    assert s[k + 1] == rest[k];
  }

  /** Dropping, right after the first plan, a plan no newer than it leaves the first maximum. */
  lemma DropNoNewer(acc: Plan, x: Plan, tail: seq<Plan>)
    requires x.version <= acc.version
    ensures Plans.FirstMax([acc, x] + tail) == Plans.FirstMax([acc] + tail)
  {
    var s, t := [acc, x] + tail, [acc] + tail;
    var i := Plans.FirstMaxIndex(t);
    var v := t[i].version;
    var i' := if i == 0 then 0 else i + 1;
    assert s[i'] == t[i];
    forall j | 0 <= j < |s| ensures s[j].version <= v && (j < i' ==> s[j].version < v) {
      if j >= 2 {
        assert s[j] == t[j - 1];
      } else if j == 1 {
        assert t[0].version <= v;
      }
    }
    Plans.FirstMaxIndexUnique(s, i');
  }

  /** The view and the store agree on the latest plan for every capability and type. */
  lemma SameLatestAsStore(plans: seq<Plan>, capabilityId: string, t: PlanType)
    ensures LatestPlan(plans, capabilityId, t) == Plans.LatestPlan(plans, capabilityId, t)
  {
    var m := Plans.MatchingPlans(plans, capabilityId, t);
    if m != [] {
      ReduceLatestIsFirstMax(m[0], m[1..]);
      assert [m[0]] + m[1..] == m;
    }
  }

  /** Absent exactly when no plan of that capability and type exists; otherwise a matching plan
      of maximal version, and among those the first in store order. */
  lemma LatestPlanFacts(plans: seq<Plan>, capabilityId: string, t: PlanType)
    ensures var r := LatestPlan(plans, capabilityId, t);
      r.None? <==> forall p :: p in plans ==> !(p.capabilityId == capabilityId && p.planType == t)
    ensures var r := LatestPlan(plans, capabilityId, t);
      r.Some? ==> r.value in plans && r.value.capabilityId == capabilityId && r.value.planType == t &&
                  forall p :: p in plans && p.capabilityId == capabilityId && p.planType == t ==>
                                p.version <= r.value.version
    ensures var r := LatestPlan(plans, capabilityId, t);
      var m := Plans.MatchingPlans(plans, capabilityId, t);
      r.Some? ==> exists i :: 0 <= i < |m| && m[i] == r.value && forall j :: 0 <= j < i ==> m[j].version < r.value.version
  {
    SameLatestAsStore(plans, capabilityId, t);
  }

  // ---------------------------------------------------------------- export

  /** `{version, phases}` of a latest plan. */
  datatype PlanSummary = PlanSummary(version: int, phases: PlanPhases)

  /** One exported item; a missing plan is `null`. */
  datatype ExportRecord = ExportRecord(
    capability: string,
    workstream: string,
    status: string,
    aspirationalPlan: Option<PlanSummary>,
    implementationPlan: Option<PlanSummary>)

  function Summary(p: Option<Plan>): Option<PlanSummary> {
    if p.Some? then Some(PlanSummary(p.value.version, p.value.phases)) else None
  }

  function RecordOf(plans: seq<Plan>, c: Capability): ExportRecord {
    ExportRecord(c.name, c.workstream, c.status,
                 Summary(LatestPlan(plans, c.id, Aspirational)),
                 Summary(LatestPlan(plans, c.id, Implementation)))
  }

  /** `exportData`: one item per capability of the store, filtered or not, in store order. */
  function ExportData(caps: seq<Capability>, plans: seq<Plan>): (r: seq<ExportRecord>)
    ensures |r| == |caps|
  {
    seq(|caps|, i requires 0 <= i < |caps| => RecordOf(plans, caps[i]))
  }

  /** The i-th item describes the i-th capability; its plan is missing exactly when the
      capability has no plan of that type, and otherwise is the store's latest plan of it. */
  lemma ExportDataFacts(caps: seq<Capability>, plans: seq<Plan>, i: int, t: PlanType)
    requires 0 <= i < |caps|
    ensures var item := ExportData(caps, plans)[i];
      item.capability == caps[i].name && item.workstream == caps[i].workstream && item.status == caps[i].status
    ensures var item := ExportData(caps, plans)[i];
      var summary := if t == Aspirational then item.aspirationalPlan else item.implementationPlan;
      (summary.None? <==> forall p :: p in plans ==> !(p.capabilityId == caps[i].id && p.planType == t)) &&
      (summary.Some? ==> exists p :: p in plans && p.capabilityId == caps[i].id && p.planType == t &&
                                     p.version == summary.value.version && p.phases == summary.value.phases &&
                                     Plans.LatestPlan(plans, caps[i].id, t) == Some(p))
  {
    SameLatestAsStore(plans, caps[i].id, t);
    var l := Plans.LatestPlan(plans, caps[i].id, t);
    if l.Some? {
      assert l.value in plans;
    }
  }

  const CsvHeaders: seq<string> := ["Capability", "Workstream", "Status", "Aspirational Plan Start",
                                    "Aspirational Plan End", "Implementation Plan Start", "Implementation Plan End"]

  /** `plan?.phases?.[n]?.startDate || ''`. */
  function StartOf(p: Option<PlanSummary>, n: PhaseName): string {
    if p.Some? && p.value.phases.Get(n).Some? then DateText(p.value.phases.Get(n).value.startDate) else ""
  }

  /** `plan?.phases?.[n]?.endDate || ''`. */
  function EndOf(p: Option<PlanSummary>, n: PhaseName): string {
    if p.Some? && p.value.phases.Get(n).Some? then DateText(p.value.phases.Get(n).value.endDate) else ""
  }

  function CsvFields(item: ExportRecord): seq<string> {
    [item.capability, item.workstream, item.status,
     StartOf(item.aspirationalPlan, Requirements), EndOf(item.aspirationalPlan, Uat),
     StartOf(item.implementationPlan, Development), EndOf(item.implementationPlan, Uat)]
  }

  function CsvRow(item: ExportRecord): string {
    CsvLine(CsvFields(item))
  }

  /** The CSV text: the unquoted header line, then one quoted line per item, joined by newlines. */
  function CsvText(data: seq<ExportRecord>): string {
    Join([Join(CsvHeaders, ',')] + Seqs.Map(data, CsvRow), '\n')
  }

  /** The CSV branch of `handleExport`: rows pushed one item at a time, then joined. */
  method ExportCsv(data: seq<ExportRecord>) returns (csv: string)
    ensures csv == CsvText(data)
  {
    var csvRows := [Join(CsvHeaders, ',')];
    for i := 0 to |data|
      invariant csvRows == [Join(CsvHeaders, ',')] + Seqs.Map(data[..i], CsvRow)
    {
      Seqs.MapAppend(data[..i], [data[i]], CsvRow);
      assert data[..i + 1] == data[..i] + [data[i]];
      csvRows := csvRows + [CsvRow(data[i])];
    }
    assert data[..|data|] == data;
    csv := Join(csvRows, '\n');
  }

  lemma HeaderLineShape()
    ensures '\n' !in Join(CsvHeaders, ',')
  {
    JoinFree(CsvHeaders, ',', '\n');
  }

  /** A record none of whose texts holds a line break. */
  predicate SingleLine(item: ExportRecord) {
    forall k :: 0 <= k < |CsvFields(item)| ==> '\n' !in CsvFields(item)[k]
  }

  /** Without line breaks in the data the file reads back as the header line and exactly one
      line per item, in order. */
  lemma CsvTextLines(data: seq<ExportRecord>)
    requires forall k :: 0 <= k < |data| ==> SingleLine(data[k])
    ensures Split(CsvText(data), '\n') == [Join(CsvHeaders, ',')] + Seqs.Map(data, CsvRow)
    ensures |Split(CsvText(data), '\n')| == |data| + 1
  {
    var rows := Seqs.Map(data, CsvRow);
    forall k | 0 <= k < |rows| ensures '\n' !in rows[k] {
      RowSingleLine(data[k]);
    }
    HeaderLineShape();
    SplitJoinHeader(Join(CsvHeaders, ','), rows, '\n');
  }

  lemma RowSingleLine(item: ExportRecord)
    requires SingleLine(item)
    ensures '\n' !in CsvRow(item)
  {
    CsvLineShape(CsvFields(item));
  }

  /** The date columns of an item with the given latest plans. */
  lemma DateColumns(name: string, workstream: string, status: string, a: Option<Plan>, m: Option<Plan>)
    ensures var f := CsvFields(ExportRecord(name, workstream, status, Summary(a), Summary(m)));
      f[3] == (if a.Some? && a.value.phases.requirements.Some? then DateText(a.value.phases.requirements.value.startDate) else "") &&
      f[4] == (if a.Some? then DateText(a.value.phases.uat.endDate) else "") &&
      f[5] == (if m.Some? then DateText(m.value.phases.development.startDate) else "") &&
      f[6] == (if m.Some? then DateText(m.value.phases.uat.endDate) else "")
  {
  }

  /** The date columns of a capability's line come from the store's latest plans: the
      aspirational requirements start and UAT end, the implementation development start and UAT
      end, and an empty text where the plan or phase is missing. */
  lemma CsvDateColumns(plans: seq<Plan>, c: Capability)
    ensures var f := CsvFields(RecordOf(plans, c));
      var a := Plans.LatestPlan(plans, c.id, Aspirational);
      var m := Plans.LatestPlan(plans, c.id, Implementation);
      f[3] == (if a.Some? && a.value.phases.requirements.Some? then DateText(a.value.phases.requirements.value.startDate) else "") &&
      f[4] == (if a.Some? then DateText(a.value.phases.uat.endDate) else "") &&
      f[5] == (if m.Some? then DateText(m.value.phases.development.startDate) else "") &&
      f[6] == (if m.Some? then DateText(m.value.phases.uat.endDate) else "")
  {
    SameLatestAsStore(plans, c.id, Aspirational);
    SameLatestAsStore(plans, c.id, Implementation);
    DateColumns(c.name, c.workstream, c.status, Plans.LatestPlan(plans, c.id, Aspirational),
                Plans.LatestPlan(plans, c.id, Implementation));
  }

  // ---------------------------------------------------------------- timeline window

  /** A phase object whose start and end dates are both set and non-empty. */
  predicate Dated(ph: Option<Phase>) {
    ph.Some? && !Blank(ph.value.startDate) && !Blank(ph.value.endDate)
  }

  /** The start and end dates of the dated phases among `names`, in that order. */
  function PhaseDates(phases: PlanPhases, names: seq<PhaseName>): seq<string> {
    if names == [] then []
    else
      var ph := phases.Get(names[0]);
      (if Dated(ph) then [ph.value.startDate.value, ph.value.endDate.value] else []) +
      PhaseDates(phases, names[1..])
  }

  /** `plans.flatMap(...)`: every date of every dated phase of every plan. */
  function PlanDates(plans: seq<Plan>): seq<string> {
    if plans == [] then [] else PhaseDates(plans[0].phases, AllPhases) + PlanDates(plans[1..])
  }

  /** A date `d` that a dated phase of the plan starts or ends on. */
  predicate PhaseDate(phases: PlanPhases, n: PhaseName, d: string) {
    Dated(phases.Get(n)) && (d == phases.Get(n).value.startDate.value || d == phases.Get(n).value.endDate.value)
  }

  lemma {:induction false} PhaseDatesMembers(phases: PlanPhases, names: seq<PhaseName>, d: string)
    ensures d in PhaseDates(phases, names) <==> exists n :: n in names && PhaseDate(phases, n, d)
  {
    if names != [] {
      PhaseDatesMembers(phases, names[1..], d);
      var ph := phases.Get(names[0]);
      var head := if Dated(ph) then [ph.value.startDate.value, ph.value.endDate.value] else [];
      assert PhaseDates(phases, names) == head + PhaseDates(phases, names[1..]);
      assert d in head <==> PhaseDate(phases, names[0], d);
      if d in PhaseDates(phases, names) {
        if d !in head {
          var n :| n in names[1..] && PhaseDate(phases, n, d);
          assert n in names;
        }
      }
      if exists n :: n in names && PhaseDate(phases, n, d) {
        var n :| n in names && PhaseDate(phases, n, d);
        if n != names[0] { assert n in names[1..]; }
      }
    }
  }

  /** The dates collected are exactly the start and end dates of the dated phases. */
  lemma {:induction false} PlanDatesMembers(plans: seq<Plan>, d: string)
    ensures d in PlanDates(plans) <==> exists p, n :: p in plans && PhaseDate(p.phases, n, d)
  {
    if plans != [] {
      PlanDatesMembers(plans[1..], d);
      PhaseDatesMembers(plans[0].phases, AllPhases, d);
      if exists p, n :: p in plans && PhaseDate(p.phases, n, d) {
        var p, n :| p in plans && PhaseDate(p.phases, n, d);
        assert n in AllPhases;
        if p != plans[0] { assert p in plans[1..]; }
      }
    }
  }

  /** `Math.min(...dates)`: a date no other date precedes. */
  function Earliest(ds: seq<string>): (r: string)
    requires ds != []
    ensures r in ds && forall d :: d in ds ==> !LexLess(d, r)
  {
    if |ds| == 1 then
      LexLessIrreflexive(ds[0]);
      assert forall d :: d in ds ==> d == ds[0];
      ds[0]
    else
      var m := Earliest(ds[1..]);
      assert forall d :: d in ds ==> d == ds[0] || d in ds[1..];
      if LexLess(ds[0], m) then
        assert forall d :: d in ds[1..] ==> !LexLess(d, ds[0]) by {
          forall d | d in ds[1..] ensures !LexLess(d, ds[0]) {
            if LexLess(d, ds[0]) { LexLessTransitive(d, ds[0], m); }
          }
        }
        LexLessIrreflexive(ds[0]);
        ds[0]
      else
        m
  }

  /** `Math.max(...dates)`: a date that precedes no other date. */
  function Latest(ds: seq<string>): (r: string)
    requires ds != []
    ensures r in ds && forall d :: d in ds ==> !LexLess(r, d)
  {
    if |ds| == 1 then
      LexLessIrreflexive(ds[0]);
      assert forall d :: d in ds ==> d == ds[0];
      ds[0]
    else
      var m := Latest(ds[1..]);
      assert forall d :: d in ds ==> d == ds[0] || d in ds[1..];
      if LexLess(m, ds[0]) then
        assert forall d :: d in ds[1..] ==> !LexLess(ds[0], d) by {
          forall d | d in ds[1..] ensures !LexLess(ds[0], d) {
            if LexLess(ds[0], d) { LexLessTransitive(m, ds[0], d); }
          }
        }
        LexLessIrreflexive(ds[0]);
        ds[0]
      else
        m
  }

  /** The date `anchor` moved by `months` calendar months with `setMonth`. */
  datatype MonthShift = MonthShift(anchor: string, months: int)

  datatype Window = Window(start: MonthShift, end: MonthShift, current: string)

  /** `getTimelineRange`: six months either side of the dated phases, or of now when there are
      none. */
  function TimelineRange(plans: seq<Plan>, now: string): Window {
    var ds := PlanDates(plans);
    if ds == [] then Window(MonthShift(now, -6), MonthShift(now, 6), now)
    else Window(MonthShift(Earliest(ds), -6), MonthShift(Latest(ds), 6), now)
  }

  /** Every date of a dated phase lies between the window's anchors, and the anchors are such
      dates; without dated phases the window is centred on now. Both sides are padded by six
      months. */
  lemma TimelineRangeFacts(plans: seq<Plan>, now: string)
    ensures var w := TimelineRange(plans, now);
      w.start.months == -6 && w.end.months == 6 && w.current == now
    ensures var w := TimelineRange(plans, now);
      forall p, n, d :: p in plans && PhaseDate(p.phases, n, d) ==>
        !LexLess(d, w.start.anchor) && !LexLess(w.end.anchor, d)
    ensures var w := TimelineRange(plans, now);
      (forall p, n :: p in plans ==> !Dated(p.phases.Get(n))) ==> w.start.anchor == now && w.end.anchor == now
    ensures var w := TimelineRange(plans, now);
      (exists p, n :: p in plans && Dated(p.phases.Get(n))) ==>
        (exists p, n :: p in plans && PhaseDate(p.phases, n, w.start.anchor)) &&
        (exists p, n :: p in plans && PhaseDate(p.phases, n, w.end.anchor))
  {
    var ds := PlanDates(plans);
    var w := TimelineRange(plans, now);
    forall p, n, d | p in plans && PhaseDate(p.phases, n, d)
      ensures !LexLess(d, w.start.anchor) && !LexLess(w.end.anchor, d)
    {
      PlanDatesMembers(plans, d);
    }
    if exists p, n :: p in plans && Dated(p.phases.Get(n)) {
      var p, n :| p in plans && Dated(p.phases.Get(n));
      var d := p.phases.Get(n).value.startDate.value;
      assert PhaseDate(p.phases, n, d);
      PlanDatesMembers(plans, d);
      PlanDatesMembers(plans, w.start.anchor);
      PlanDatesMembers(plans, w.end.anchor);
    } else if ds != [] {
      PlanDatesMembers(plans, ds[0]);
    }
  }

  // ---------------------------------------------------------------- phase bars

  /** A phase gets a bar when the plan has it and its end is not before its start; a missing or
      invalid date makes the width NaN, which is not below zero, so the bar is drawn. */
  predicate DrawsBar(ph: Option<Phase>) {
    ph.Some? && !Before(DateText(ph.value.endDate), DateText(ph.value.startDate))
  }

  /** `renderTimelineBars`: the phases of the type that get a bar, in phase order. */
  function BarPhases(plan: Plan, t: PlanType): seq<PhaseName> {
    Seqs.Filter(PlanForm.PhaseList(t), (n: PhaseName) => DrawsBar(plan.phases.Get(n)))
  }

  /** A bar is drawn exactly for a phase of the type's list that the plan has and whose end is
      not before its start; the bars keep the list's order, and an implementation plan never
      shows requirements or design. */
  lemma BarPhasesFacts(plan: Plan, t: PlanType)
    ensures forall n :: n in BarPhases(plan, t) <==>
      n in PlanForm.PhaseList(t) && plan.phases.Get(n).Some? &&
      !Before(DateText(plan.phases.Get(n).value.endDate), DateText(plan.phases.Get(n).value.startDate))
    ensures Seqs.SubsequenceOf(BarPhases(plan, t), PlanForm.PhaseList(t))
    ensures t == Implementation ==> Requirements !in BarPhases(plan, t) && Design !in BarPhases(plan, t)
    ensures forall n ::
      (n in PlanForm.PhaseList(t) && plan.phases.Get(n).Some? &&
       DateText(plan.phases.Get(n).value.startDate) == DateText(plan.phases.Get(n).value.endDate)) ==>
      n in BarPhases(plan, t)
  {
    Seqs.FilterIsSubsequence(PlanForm.PhaseList(t), (n: PhaseName) => DrawsBar(plan.phases.Get(n)));
    forall n | n in PlanForm.PhaseList(t) && plan.phases.Get(n).Some? &&
      DateText(plan.phases.Get(n).value.startDate) == DateText(plan.phases.Get(n).value.endDate)
      ensures DrawsBar(plan.phases.Get(n))
    {
      LexLessIrreflexive(DateText(plan.phases.Get(n).value.startDate));
    }
  }
}
