/** The plan form: its phase fields, the validation run before saving, and the save itself, which
    updates the latest plan of the capability and type or adds a new plan. */
module PlanForm {
  import opened Wrappers
  import opened Types
  import opened Dates
  import Seqs
  import Plans
  import ProjectStore

  // ---------------------------------------------------------------- form state

  /** The form always holds all five phases. */
  datatype FormPhases = FormPhases(requirements: Phase, design: Phase, development: Phase, cst: Phase, uat: Phase)
  {
    function Get(n: PhaseName): Phase {
      match n
      case Requirements => requirements
      case Design => design
      case Development => development
      case Cst => cst
      case Uat => uat
    }

    function With(n: PhaseName, ph: Phase): (r: FormPhases)
      ensures r.Get(n) == ph
      ensures forall m :: m != n ==> r.Get(m) == Get(m)
    {
      match n
      case Requirements => this.(requirements := ph)
      case Design => this.(design := ph)
      case Development => this.(development := ph)
      case Cst => this.(cst := ph)
      case Uat => this.(uat := ph)
    }
  }

  datatype FormState = FormState(status: PlanStatus, phases: FormPhases)

  /** A blank phase of the form. */
  const BlankPhase := Phase(Some(""), Some(""), Some("not-started"), Some(Percent(0)), Some(""), None)

  const InitialForm := FormState(Draft, FormPhases(BlankPhase, BlankPhase, BlankPhase, BlankPhase, BlankPhase))

  /** The form once the latest plan of the capability and type has been loaded into it: its
      status and phases, a missing requirements or design phase left blank. */
  function LoadedForm(latest: Option<Plan>): (r: FormState)
    ensures latest.None? ==> r == InitialForm
    ensures latest.Some? ==>
      r.status == latest.value.status &&
      r.phases.development == latest.value.phases.development &&
      r.phases.cst == latest.value.phases.cst &&
      r.phases.uat == latest.value.phases.uat &&
      r.phases.requirements == latest.value.phases.requirements.GetOr(BlankPhase) &&
      r.phases.design == latest.value.phases.design.GetOr(BlankPhase)
  {
    match latest
    case None => InitialForm
    case Some(p) =>
      FormState(p.status, FormPhases(
        if p.phases.requirements.Some? then p.phases.requirements.value else BlankPhase,
        if p.phases.design.Some? then p.phases.design.value else BlankPhase,
        p.phases.development, p.phases.cst, p.phases.uat))
  }

  /** The phase inputs the form offers. */
  datatype FormField = StartDateInput | EndDateInput | StatusInput | ProgressInput | NotesInput

  /** `{...ph, [field]: value}`; the number input hands over its text. */
  function SetField(ph: Phase, f: FormField, value: string): Phase {
    match f
    case StartDateInput => ph.(startDate := Some(value))
    case EndDateInput => ph.(endDate := Some(value))
    case StatusInput => ph.(status := Some(value))
    case ProgressInput => ph.(progress := Some(Typed(value)))
    case NotesInput => ph.(notes := Some(value))
  }

  /** `handlePhaseChange`. */
  function ChangePhaseField(form: FormState, n: PhaseName, f: FormField, value: string): FormState {
    form.(phases := form.phases.With(n, SetField(form.phases.Get(n), f, value)))
  }

  /** A change touches one field of one phase: that field holds the new value, every other
      field of that phase, every other phase and the plan status stay as they were. */
  lemma ChangePhaseFieldEffect(form: FormState, n: PhaseName, f: FormField, value: string)
    ensures var r := ChangePhaseField(form, n, f, value);
      var before, after := form.phases.Get(n), r.phases.Get(n);
      r.status == form.status &&
      (forall m :: m != n ==> r.phases.Get(m) == form.phases.Get(m)) &&
      (if f == StartDateInput then after.startDate == Some(value) else after.startDate == before.startDate) &&
      (if f == EndDateInput then after.endDate == Some(value) else after.endDate == before.endDate) &&
      (if f == StatusInput then after.status == Some(value) else after.status == before.status) &&
      (if f == ProgressInput then after.progress == Some(Typed(value)) else after.progress == before.progress) &&
      (if f == NotesInput then after.notes == Some(value) else after.notes == before.notes) &&
      after.assignedTo == before.assignedTo
  {
  }

  // ---------------------------------------------------------------- validation

  /** The phases a plan of the type is checked on. */
  function PhaseList(t: PlanType): (r: seq<PhaseName>)
    ensures Seqs.Distinct(r)
  {
    match t
    case Aspirational => [Requirements, Design, Development, Cst, Uat]
    case Implementation => [Development, Cst, Uat]
  }

  datatype ErrorKind = StartMissing | EndMissing | EndBeforeStart | OutOfSequence

  /** The key of an error entry. */
  datatype ErrorKey = ErrorKey(phase: PhaseName, kind: ErrorKind)

  /** `<phase>Start`, `<phase>End`, `<phase>Dates` or `<phase>Sequence`. */
  function KeyText(k: ErrorKey): string {
    PhaseKey(k.phase) +
    match k.kind
    case StartMissing => "Start"
    case EndMissing => "End"
    case EndBeforeStart => "Dates"
    case OutOfSequence => "Sequence"
  }

  /** One entry of the error object, in insertion order. */
  datatype FormError = FormError(key: ErrorKey, message: string)

  function KeyOf(e: FormError): ErrorKey {
    e.key
  }

  /** `Object.keys` of the error object. */
  function Keys(errors: seq<FormError>): seq<ErrorKey> {
    Seqs.Map(errors, KeyOf)
  }

  /** `new Date(start) > new Date(end)` on two filled-in dates. */
  predicate EndsBeforeStart(ph: Phase) {
    !Blank(ph.startDate) && !Blank(ph.endDate) && Before(ph.endDate.value, ph.startDate.value)
  }

  /** Both filled in and `new Date(cur.startDate) < new Date(prev.endDate)`. */
  predicate StartsBeforePrevEnds(prev: Phase, cur: Phase) {
    !Blank(prev.endDate) && !Blank(cur.startDate) && Before(cur.startDate.value, prev.endDate.value)
  }

  function StartMessage(n: PhaseName): string {
    PhaseKey(n) + " start date is required"
  }

  function EndMessage(n: PhaseName): string {
    PhaseKey(n) + " end date is required"
  }

  function DatesMessage(n: PhaseName): string {
    PhaseKey(n) + " end date must be after start date"
  }

  function SequenceMessage(cur: PhaseName, prev: PhaseName): string {
    PhaseKey(cur) + " must start after " + PhaseKey(prev) + " ends"
  }

  /** The errors the `forEach` records for one phase, in order. */
  function PhaseErrors(n: PhaseName, ph: Phase): seq<FormError> {
    (if Blank(ph.startDate) then [FormError(ErrorKey(n, StartMissing), StartMessage(n))] else []) +
    (if Blank(ph.endDate) then [FormError(ErrorKey(n, EndMissing), EndMessage(n))] else []) +
    (if EndsBeforeStart(ph) then [FormError(ErrorKey(n, EndBeforeStart), DatesMessage(n))] else [])
  }

  lemma PhaseErrorsKeys(n: PhaseName, ph: Phase, k: ErrorKey)
    ensures k in Keys(PhaseErrors(n, ph)) <==>
      k.phase == n &&
      match k.kind
      case StartMissing => Blank(ph.startDate)
      case EndMissing => Blank(ph.endDate)
      case EndBeforeStart => EndsBeforeStart(ph)
      case OutOfSequence => false
  {
    var a := if Blank(ph.startDate) then [FormError(ErrorKey(n, StartMissing), StartMessage(n))] else [];
    var b := if Blank(ph.endDate) then [FormError(ErrorKey(n, EndMissing), EndMessage(n))] else [];
    var c := if EndsBeforeStart(ph) then [FormError(ErrorKey(n, EndBeforeStart), DatesMessage(n))] else [];
    assert Keys(a) == if Blank(ph.startDate) then [ErrorKey(n, StartMissing)] else [];
    assert Keys(b) == if Blank(ph.endDate) then [ErrorKey(n, EndMissing)] else [];
    assert Keys(c) == if EndsBeforeStart(ph) then [ErrorKey(n, EndBeforeStart)] else [];
    Seqs.MapAppend(a, b, KeyOf);
    Seqs.MapAppend(a + b, c, KeyOf);
  }

  function PhaseErrorsOver(names: seq<PhaseName>, phases: FormPhases): seq<FormError> {
    if names == [] then []
    else PhaseErrorsOver(names[..|names| - 1], phases) + PhaseErrors(names[|names| - 1], phases.Get(names[|names| - 1]))
  }

  function SequenceError(prev: PhaseName, cur: PhaseName, phases: FormPhases): seq<FormError> {
    if StartsBeforePrevEnds(phases.Get(prev), phases.Get(cur))
    then [FormError(ErrorKey(cur, OutOfSequence), SequenceMessage(cur, prev))]
    else []
  }

  /** The errors of the `for` loop for the indices 1 up to `i - 1`. */
  function SequenceErrorsUpTo(names: seq<PhaseName>, phases: FormPhases, i: nat): seq<FormError>
    requires i <= |names|
  {
    if i <= 1 then []
    else SequenceErrorsUpTo(names, phases, i - 1) + SequenceError(names[i - 2], names[i - 1], phases)
  }

  /** Every error `validateForm` records, in the order it records them. */
  function ExpectedErrors(t: PlanType, phases: FormPhases): seq<FormError> {
    PhaseErrorsOver(PhaseList(t), phases) + SequenceErrorsUpTo(PhaseList(t), phases, |PhaseList(t)|)
  }

  /** The `forEach` callback of `validateForm`: the errors of one phase, recorded after those
      already found. */
  method CheckPhase(found: seq<FormError>, n: PhaseName, ph: Phase) returns (errors: seq<FormError>)
    ensures errors == found + PhaseErrors(n, ph)
  {
    errors := found;
    if Blank(ph.startDate) {
      errors := errors + [FormError(ErrorKey(n, StartMissing), StartMessage(n))];
    }
    if Blank(ph.endDate) {
      errors := errors + [FormError(ErrorKey(n, EndMissing), EndMessage(n))];
    }
    if !Blank(ph.startDate) && !Blank(ph.endDate) {
      if Before(ph.endDate.value, ph.startDate.value) {
        errors := errors + [FormError(ErrorKey(n, EndBeforeStart), DatesMessage(n))];
      }
    }
  }

  /** `validateForm`: one pass over the type's phases, then one over consecutive pairs; the form
      is valid exactly when nothing was recorded. */
  method ValidateForm(t: PlanType, phases: FormPhases) returns (errors: seq<FormError>, ok: bool)
    ensures errors == ExpectedErrors(t, phases)
    ensures ok <==> errors == []
  {
    var names := PhaseList(t);
    errors := [];
    var j := 0;
    while j < |names|
      invariant 0 <= j <= |names|
      invariant errors == PhaseErrorsOver(names[..j], phases)
    {
      assert names[..j + 1][..j] == names[..j];
      errors := CheckPhase(errors, names[j], phases.Get(names[j]));
      j := j + 1;
    }
    assert names[..|names|] == names;
    errors := CheckSequence(errors, names, phases);
    ok := |errors| == 0;
  }

  /** The phase-sequence loop of `validateForm`: for each listed phase after the first, an error
      when it starts before the previous one ends, recorded after those already found. */
  method CheckSequence(found: seq<FormError>, names: seq<PhaseName>, phases: FormPhases) returns (errors: seq<FormError>)
    ensures errors == found + SequenceErrorsUpTo(names, phases, |names|)
  {
    errors := found;
    var i := 1;
    while i < |names|
      invariant 1 <= i && (i <= |names| || names == [])
      invariant errors == found + SequenceErrorsUpTo(names, phases, if names == [] then 0 else i)
    {
      var prev, cur := phases.Get(names[i - 1]), phases.Get(names[i]);
      ghost var before := errors;
      if !Blank(prev.endDate) && !Blank(cur.startDate) {
        if Before(cur.startDate.value, prev.endDate.value) {
          errors := errors + [FormError(ErrorKey(names[i], OutOfSequence), SequenceMessage(names[i], names[i - 1]))];
        }
      }
      ghost var step := SequenceError(names[i - 1], names[i], phases);
      assert errors == before + step;
      assert SequenceErrorsUpTo(names, phases, i + 1) == SequenceErrorsUpTo(names, phases, i) + step;
      i := i + 1;
    }
  }

  /** What an error key reports, stated without the loops: only the type's phases are looked
      at; a missing start or end date, a start strictly after its end (equal dates pass), and a
      phase starting strictly before the previous listed phase ends (a same-day handoff passes). */
  predicate Violated(t: PlanType, phases: FormPhases, k: ErrorKey) {
    var names := PhaseList(t);
    var ph := phases.Get(k.phase);
    match k.kind
    case StartMissing => k.phase in names && Blank(ph.startDate)
    case EndMissing => k.phase in names && Blank(ph.endDate)
    case EndBeforeStart => k.phase in names && EndsBeforeStart(ph)
    case OutOfSequence =>
      exists i :: 1 <= i < |names| && names[i] == k.phase && StartsBeforePrevEnds(phases.Get(names[i - 1]), ph)
  }

  lemma {:induction false} PhaseErrorsOverKeys(names: seq<PhaseName>, phases: FormPhases, k: ErrorKey)
    ensures k in Keys(PhaseErrorsOver(names, phases)) <==>
      k.phase in names &&
      match k.kind
      case StartMissing => Blank(phases.Get(k.phase).startDate)
      case EndMissing => Blank(phases.Get(k.phase).endDate)
      case EndBeforeStart => EndsBeforeStart(phases.Get(k.phase))
      case OutOfSequence => false
  {
    if names != [] {
      var init, n := names[..|names| - 1], names[|names| - 1];
      PhaseErrorsOverKeys(init, phases, k);
      PhaseErrorsKeys(n, phases.Get(n), k);
      Seqs.MapAppend(PhaseErrorsOver(init, phases), PhaseErrors(n, phases.Get(n)), KeyOf);
      assert names == init + [n];
    }
  }

  lemma {:induction false} SequenceErrorsKeys(names: seq<PhaseName>, phases: FormPhases, i: nat, k: ErrorKey)
    requires i <= |names|
    ensures k in Keys(SequenceErrorsUpTo(names, phases, i)) <==>
      k.kind == OutOfSequence &&
      exists j :: 1 <= j < i && names[j] == k.phase &&
                  StartsBeforePrevEnds(phases.Get(names[j - 1]), phases.Get(names[j]))
  {
    if i > 1 {
      SequenceErrorsKeys(names, phases, i - 1, k);
      Seqs.MapAppend(SequenceErrorsUpTo(names, phases, i - 1), SequenceError(names[i - 2], names[i - 1], phases),
                     KeyOf);
      var last := SequenceError(names[i - 2], names[i - 1], phases);
      assert Keys(last) == if StartsBeforePrevEnds(phases.Get(names[i - 2]), phases.Get(names[i - 1]))
                           then [ErrorKey(names[i - 1], OutOfSequence)] else [];
      assert k in Keys(last) <==>
        k.kind == OutOfSequence && names[i - 1] == k.phase &&
        StartsBeforePrevEnds(phases.Get(names[i - 2]), phases.Get(names[i - 1]));
      if k.kind == OutOfSequence && names[i - 1] == k.phase &&
         StartsBeforePrevEnds(phases.Get(names[i - 2]), phases.Get(names[i - 1])) {
        assert 1 <= i - 1 < i && names[i - 1] == k.phase;
      }
      if exists j :: 1 <= j < i && names[j] == k.phase &&
                     StartsBeforePrevEnds(phases.Get(names[j - 1]), phases.Get(names[j])) {
        var j :| 1 <= j < i && names[j] == k.phase &&
                 StartsBeforePrevEnds(phases.Get(names[j - 1]), phases.Get(names[j]));
        if j < i - 1 {
          assert exists j' :: 1 <= j' < i - 1 && names[j'] == k.phase &&
                              StartsBeforePrevEnds(phases.Get(names[j' - 1]), phases.Get(names[j']));
        }
      }
    }
  }

  /** The recorded error keys are exactly the violated checks, in both directions. */
  lemma ErrorKeysExact(t: PlanType, phases: FormPhases, k: ErrorKey)
    ensures k in Keys(ExpectedErrors(t, phases)) <==> Violated(t, phases, k)
  {
    var names := PhaseList(t);
    PhaseErrorsOverKeys(names, phases, k);
    SequenceErrorsKeys(names, phases, |names|, k);
    Seqs.MapAppend(PhaseErrorsOver(names, phases), SequenceErrorsUpTo(names, phases, |names|), KeyOf);
  }

  /** Every listed phase has both dates, no listed phase ends before it starts, and each listed
      phase starts no earlier than the previous one ends. */
  predicate WellScheduled(t: PlanType, phases: FormPhases) {
    var names := PhaseList(t);
    (forall n :: n in names ==> !Blank(phases.Get(n).startDate) && !Blank(phases.Get(n).endDate) &&
                                !EndsBeforeStart(phases.Get(n))) &&
    (forall i :: 1 <= i < |names| ==> !StartsBeforePrevEnds(phases.Get(names[i - 1]), phases.Get(names[i])))
  }

  /** The form is valid exactly when it is well scheduled. */
  lemma ValidIffWellScheduled(t: PlanType, phases: FormPhases)
    ensures ExpectedErrors(t, phases) == [] <==> WellScheduled(t, phases)
  {
    var names := PhaseList(t);
    var errs := ExpectedErrors(t, phases);
    if errs == [] {
      forall n | n in names
        ensures !Blank(phases.Get(n).startDate) && !Blank(phases.Get(n).endDate) && !EndsBeforeStart(phases.Get(n))
      {
        ErrorKeysExact(t, phases, ErrorKey(n, StartMissing));
        ErrorKeysExact(t, phases, ErrorKey(n, EndMissing));
        ErrorKeysExact(t, phases, ErrorKey(n, EndBeforeStart));
      }
      forall i | 1 <= i < |names|
        ensures !StartsBeforePrevEnds(phases.Get(names[i - 1]), phases.Get(names[i]))
      {
        ErrorKeysExact(t, phases, ErrorKey(names[i], OutOfSequence));
      }
    } else {
      var k := errs[0].key;
      assert k == Keys(errs)[0];
      ErrorKeysExact(t, phases, k);
    }
  }

  /** Only the type's phases matter: phases outside the list may hold anything. */
  lemma {:induction false} UnlistedPhasesIgnored(t: PlanType, p1: FormPhases, p2: FormPhases)
    requires forall n :: n in PhaseList(t) ==> p1.Get(n) == p2.Get(n)
    ensures ExpectedErrors(t, p1) == ExpectedErrors(t, p2)
  {
    var names := PhaseList(t);
    PhaseErrorsOverAgree(names, p1, p2);
    SequenceErrorsAgree(names, p1, p2, |names|);
  }

  lemma {:induction false} PhaseErrorsOverAgree(names: seq<PhaseName>, p1: FormPhases, p2: FormPhases)
    requires forall n :: n in names ==> p1.Get(n) == p2.Get(n)
    ensures PhaseErrorsOver(names, p1) == PhaseErrorsOver(names, p2)
  {
    if names != [] {
      PhaseErrorsOverAgree(names[..|names| - 1], p1, p2);
    }
  }

  lemma {:induction false} SequenceErrorsAgree(names: seq<PhaseName>, p1: FormPhases, p2: FormPhases, i: nat)
    requires i <= |names|
    requires forall n :: n in names ==> p1.Get(n) == p2.Get(n)
    ensures SequenceErrorsUpTo(names, p1, i) == SequenceErrorsUpTo(names, p2, i)
  {
    if i > 1 {
      SequenceErrorsAgree(names, p1, p2, i - 1);
      assert names[i - 2] in names && names[i - 1] in names;
    }
  }

  /** The dates of a listed phase as the date input writes them. */
  predicate IsoDated(ph: Phase) {
    ph.startDate.Some? && IsIsoDate(ph.startDate.value) && ph.endDate.Some? && IsIsoDate(ph.endDate.value)
  }

  /** A valid form whose dates come from the date input is in calendar order: each listed phase
      ends no earlier than it starts, and every later listed phase starts no earlier than an
      earlier one ends. */
  lemma {:induction false} ValidFormChronological(t: PlanType, phases: FormPhases, i: int, j: int)
    requires WellScheduled(t, phases)
    requires forall n :: n in PhaseList(t) ==> IsoDated(phases.Get(n))
    requires 0 <= i < j < |PhaseList(t)|
    ensures var names := PhaseList(t);
      !LexLess(phases.Get(names[i]).endDate.value, phases.Get(names[i]).startDate.value) &&
      !LexLess(phases.Get(names[j]).startDate.value, phases.Get(names[i]).endDate.value)
  {
    var names := PhaseList(t);
    assert names[i] in names && names[j] in names && names[j - 1] in names;
    if j > i + 1 {
      ValidFormChronological(t, phases, i, j - 1);
      var a, b, c := phases.Get(names[i]).endDate.value, phases.Get(names[j - 1]).startDate.value,
                     phases.Get(names[j - 1]).endDate.value;
      LexNotLessTransitive(a, b, c);
      LexNotLessTransitive(a, c, phases.Get(names[j]).startDate.value);
    }
  }

  // ---------------------------------------------------------------- saving

  /** The form's phases as a plan holds them: all five, whatever the type. */
  function SavedPhases(f: FormPhases): PlanPhases {
    PlanPhases(Some(f.requirements), Some(f.design), f.development, f.cst, f.uat)
  }

  /** The metadata the form sends along. */
  const FormMetadata := Metadata("Current User", "Current User")

  /** `planData` as `updatePlan` receives it, its properties in the order they are written. */
  function FormPartial(capabilityId: string, t: PlanType, form: FormState): seq<Plans.PlanField> {
    [Plans.SetCapabilityId(capabilityId), Plans.SetType(t), Plans.SetStatus(form.status),
     Plans.SetPhases(SavedPhases(form.phases)), Plans.SetMetadata(FormMetadata)]
  }

  /** `planData` as `addPlan` receives it. */
  function FormInput(capabilityId: string, t: PlanType, form: FormState): Plans.PlanInput {
    Plans.PlanInput(capabilityId, t, form.status, SavedPhases(form.phases), None)
  }

  datatype Outcome = Rejected(errors: seq<FormError>) | UpdatedExisting(planId: string) | AddedNew

  /** `handleSubmit`: an invalid form changes nothing; a valid one updates the latest plan of the
      capability and type when there is one, and otherwise adds exactly one plan. */
  method HandleSubmit(store: ProjectStore.Store, capabilityId: string, t: PlanType, form: FormState,
                      now: string, newId: string, entryId: string) returns (outcome: Outcome)
    modifies store`plans
    ensures var latest := Plans.LatestPlan(old(store.plans), capabilityId, t);
      if ExpectedErrors(t, form.phases) != [] then
        outcome == Rejected(ExpectedErrors(t, form.phases)) && store.plans == old(store.plans)
      else if latest.Some? then
        outcome == UpdatedExisting(latest.value.id) &&
        store.plans == Plans.UpdatePlans(old(store.plans), latest.value.id, FormPartial(capabilityId, t, form),
                                         now, store.currentUser, entryId)
      else
        outcome == AddedNew &&
        store.plans == old(store.plans) + [Plans.NewPlan(FormInput(capabilityId, t, form), newId, now, store.currentUser)]
  {
    var errors, ok := ValidateForm(t, form.phases);
    if !ok {
      return Rejected(errors);
    }
    var existing := store.GetLatestPlan(capabilityId, t);
    if existing.Some? {
      store.UpdatePlan(existing.value.id, FormPartial(capabilityId, t, form), now, entryId);
      outcome := UpdatedExisting(existing.value.id);
    } else {
      store.AddPlan(FormInput(capabilityId, t, form), newId, now);
      outcome := AddedNew;
    }
  }

  /** Saving over an existing plan writes the form's status and all five phases, keeps the
      version, replaces `createdBy` with the literal `Current User` and sets `lastUpdatedBy` to the
      acting user; its history entry lists capabilityId, type, status, phases and metadata. */
  lemma FormUpdateEffect(p: Plan, capabilityId: string, t: PlanType, form: FormState, now: string, user: string, entryId: string)
    ensures var r := Plans.UpdatedPlan(p, FormPartial(capabilityId, t, form), now, user, entryId);
      r.status == form.status && r.phases == SavedPhases(form.phases) && r.version == p.version &&
      r.capabilityId == capabilityId && r.planType == t &&
      r.metadata == Metadata("Current User", user) &&
      |r.history| == |p.history| + 1 && r.history[..|p.history|] == p.history &&
      Seqs.Map(r.history[|p.history|].changes, (c: Change) => c.field) ==
        ["capabilityId", "type", "status", "phases", "metadata"]
  {
    FormMerged(p, capabilityId, t, form);
    FormChangeFields(p, capabilityId, t, form, user);
  }

  /** The five properties of the form spread over a plan. */
  lemma FormMerged(p: Plan, capabilityId: string, t: PlanType, form: FormState)
    ensures Plans.Spread(p, FormPartial(capabilityId, t, form)) ==
      p.(capabilityId := capabilityId, planType := t, status := form.status,
         phases := SavedPhases(form.phases), metadata := FormMetadata)
  {
    var partial := FormPartial(capabilityId, t, form);
    var a, b, c, d, e := partial[0], partial[1], partial[2], partial[3], partial[4];
    assert Plans.Spread(p, []) == p;
    Plans.SpreadSnoc(p, [], a);
    assert [] + [a] == [a];
    var p1 := p.(capabilityId := capabilityId);
    assert Plans.Spread(p, [a]) == p1;
    Plans.SpreadSnoc(p, [a], b);
    assert [a] + [b] == [a, b];
    var p2 := p1.(planType := t);
    assert Plans.Spread(p, [a, b]) == p2;
    Plans.SpreadSnoc(p, [a, b], c);
    assert [a, b] + [c] == [a, b, c];
    var p3 := p2.(status := form.status);
    assert Plans.Spread(p, [a, b, c]) == p3;
    Plans.SpreadSnoc(p, [a, b, c], d);
    assert [a, b, c] + [d] == [a, b, c, d];
    var p4 := p3.(phases := SavedPhases(form.phases));
    assert Plans.Spread(p, [a, b, c, d]) == p4;
    Plans.SpreadSnoc(p, [a, b, c, d], e);
    assert [a, b, c, d] + [e] == partial;
    assert Plans.Spread(p, partial) == p4.(metadata := FormMetadata);
  }

  /** The update's history entry names the five properties of the form, in order. */
  lemma FormChangeFields(p: Plan, capabilityId: string, t: PlanType, form: FormState, user: string)
    ensures Seqs.Map(Plans.UpdateChanges(p, FormPartial(capabilityId, t, form), user), (c: Change) => c.field) ==
      ["capabilityId", "type", "status", "phases", "metadata"]
  {
    var changes := Plans.UpdateChanges(p, FormPartial(capabilityId, t, form), user);
    var names := Seqs.Map(changes, (c: Change) => c.field);
    assert |names| == 5;
    assert names[0] == "capabilityId" && names[1] == "type" && names[2] == "status" &&
           names[3] == "phases" && names[4] == "metadata";
  }

  /** A plan saved from the form carries requirements and design phases even when it is an
      implementation plan, whose form never shows them. */
  lemma SavedPlanHasAllPhases(capabilityId: string, t: PlanType, form: FormState, id: string, now: string, user: string)
    ensures var p := Plans.NewPlan(FormInput(capabilityId, t, form), id, now, user);
      p.phases.requirements == Some(form.phases.requirements) && p.phases.design == Some(form.phases.design) &&
      p.planType == t && p.version == 1 && p.status == Draft
  {
  }
}
