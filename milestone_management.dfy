/** The milestones page: the technical and business lists, and the CSV download of every
    milestone with the number of capabilities that use it. */
module MilestoneManagement {
  import opened Types
  import opened Text
  import Seqs
  import Records
  import ProjectStore

  /** The two tabs. The search box's text is not read by either list. */
  function TechnicalMilestones(ms: seq<Milestone>): seq<Milestone> {
    Records.OfType(ms, Technical)
  }

  function BusinessMilestones(ms: seq<Milestone>): seq<Milestone> {
    Records.OfType(ms, Business)
  }

  /** Every milestone is in exactly one of the two lists, each list keeps store order, and
      together they hold as many milestones as the store. */
  lemma {:induction false} Partition(ms: seq<Milestone>)
    ensures forall m :: m in TechnicalMilestones(ms) <==> m in ms && m.milestoneType == Technical
    ensures forall m :: m in BusinessMilestones(ms) <==> m in ms && m.milestoneType == Business
    ensures Seqs.SubsequenceOf(TechnicalMilestones(ms), ms) && Seqs.SubsequenceOf(BusinessMilestones(ms), ms)
    ensures |TechnicalMilestones(ms)| + |BusinessMilestones(ms)| == |ms|
  {
    Seqs.FilterIsSubsequence(ms, (m: Milestone) => m.milestoneType == Technical);
    Seqs.FilterIsSubsequence(ms, (m: Milestone) => m.milestoneType == Business);
    if ms != [] {
      Partition(ms[1..]);
    }
  }

  /** `milestone.type` as written: `technical` or `business`. */
  function TypeText(t: MilestoneType): string {
    match t
    case Technical => "technical"
    case Business => "business"
  }

  /** The column names of the header line. */
  const CsvColumns: seq<string> := ["Milestone Name", "Target Date", "Type", "Description", "Status", "Usage Count"]

  /** `Milestone Name,Target Date,Type,Description,Status,Usage Count`. */
  const CsvHeader := Join(CsvColumns, ',')

  /** One line: only the description is quoted, the count is written in decimal. */
  function MilestoneRow(m: Milestone, count: nat): string {
    m.name + "," + m.date + "," + TypeText(m.milestoneType) + "," + Quote(m.description) + "," +
    m.status + "," + NatToString(count)
  }

  /** The lines of every milestone, in store order, each with its usage count. */
  function MilestoneRows(ms: seq<Milestone>, caps: seq<Capability>): (r: seq<string>)
    ensures |r| == |ms|
  {
    seq(|ms|, i requires 0 <= i < |ms| => MilestoneRow(ms[i], ProjectStore.UsageCount(caps, ms[i].id)))
  }

  /** The CSV text of `handleDownload`: the header line, a line break, the lines joined by line
      breaks. */
  function CsvText(ms: seq<Milestone>, caps: seq<Capability>): string {
    CsvHeader + "\n" + Join(MilestoneRows(ms, caps), '\n')
  }

  /** The link's content: a data URL prefix before the text. */
  function DownloadContent(ms: seq<Milestone>, caps: seq<Capability>): string {
    "data:text/csv;charset=utf-8," + CsvText(ms, caps)
  }

  /** Texts a milestone line can carry without being cut: no comma and no line break, and no
      quote in the description. */
  predicate Plain(m: Milestone) {
    ',' !in m.name && ',' !in m.date && ',' !in m.status && ',' !in m.description && '"' !in m.description &&
    '\n' !in m.name && '\n' !in m.date && '\n' !in m.status && '\n' !in m.description
  }

  lemma TypeTextPlain(t: MilestoneType)
    ensures ',' !in TypeText(t) && '\n' !in TypeText(t)
  {
  }

  /** A line splits at its commas into the six columns, the description between quotes. */
  lemma RowColumns(m: Milestone, count: nat)
    requires Plain(m)
    ensures Split(MilestoneRow(m, count), ',') ==
      [m.name, m.date, TypeText(m.milestoneType), Quote(m.description), m.status, NatToString(count)]
  {
    var t, q, n := TypeText(m.milestoneType), Quote(m.description), NatToString(count);
    TypeTextPlain(m.milestoneType);
    assert ',' !in q by { assert q == "\"" + m.description + "\""; }
    assert ',' !in n by { assert forall k :: 0 <= k < |n| ==> n[k] != ','; }
    var s5 := m.status + [','] + n;
    var s4 := q + [','] + s5;
    var s3 := t + [','] + s4;
    var s2 := m.date + [','] + s3;
    assert MilestoneRow(m, count) == m.name + [','] + s2;
    SplitNoSeparator(n, ',');
    SplitAtSeparator(m.status, n, ',');
    SplitAtSeparator(q, s5, ',');
    SplitAtSeparator(t, s4, ',');
    SplitAtSeparator(m.date, s3, ',');
    SplitAtSeparator(m.name, s2, ',');
  }

  lemma RowSingleLine(m: Milestone, count: nat)
    requires Plain(m)
    ensures '\n' !in MilestoneRow(m, count)
  {
    TypeTextPlain(m.milestoneType);
    var n := NatToString(count);
    assert '\n' !in n by { assert forall k :: 0 <= k < |n| ==> n[k] != '\n'; }
    assert '\n' !in Quote(m.description) by { assert Quote(m.description) == "\"" + m.description + "\""; }
  }

  lemma HeaderSingleLine()
    ensures '\n' !in CsvHeader
  {
    JoinFree(CsvColumns, ',', '\n');
  }

  /** With plain milestones, at least one of them, the text reads back as the header line
      followed by exactly one line per milestone, in store order, each carrying its usage
      count. */
  lemma CsvTextLines(ms: seq<Milestone>, caps: seq<Capability>)
    requires ms != [] && forall m :: m in ms ==> Plain(m)
    ensures var lines := Split(CsvText(ms, caps), '\n');
      |lines| == |ms| + 1 && lines[0] == CsvHeader &&
      forall i :: 0 <= i < |ms| ==> lines[i + 1] == MilestoneRow(ms[i], ProjectStore.UsageCount(caps, ms[i].id))
  {
    var rows := MilestoneRows(ms, caps);
    assert CsvText(ms, caps) == CsvHeader + ['\n'] + Join(rows, '\n');
    HeaderSingleLine();
    forall k | 0 <= k < |rows| ensures '\n' !in rows[k] {
      assert ms[k] in ms;
      RowSingleLine(ms[k], ProjectStore.UsageCount(caps, ms[k].id));
    }
    SplitJoin(rows, '\n');
    SplitAtSeparator(CsvHeader, Join(rows, '\n'), '\n');
  }

  /** With no milestone the text is the header line and an empty last line. */
  lemma EmptyDownload(caps: seq<Capability>)
    ensures Split(CsvText([], caps), '\n') == [CsvHeader, ""]
  {
    assert MilestoneRows([], caps) == [];
    assert CsvText([], caps) == CsvHeader + ['\n'] + "";
    HeaderSingleLine();
    SplitAtSeparator(CsvHeader, "", '\n');
  }
}
