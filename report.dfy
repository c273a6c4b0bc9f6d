/** The carbon-footprint declaration: the blocks of the PDF report in the
    order they are laid out, with the text and figures each block shows.
    Page layout, fonts, colours and the footer drawn on each page are not
    part of this model. */
module Report {
  import opened Text
  import opened Emissions

  /** The paragraph styles of the report's style sheet that it uses. */
  datatype Style = Title | Normal | Heading3 | Heading4

  datatype Block =
    | Paragraph(text: Text, style: Style)
    | Spacer(height: nat)                 // vertical gap, in points
    | Table(cells: seq<seq<Text>>)        // rows of cells, header row first

  /** Everything a report is built from. The date is the day the report is
      generated, already written out as the report shows it. */
  datatype Declaration = Declaration(
    company: string,
    country: string,
    year: string,
    revenue: real,
    currency: string,
    rows: seq<Row>,
    totals: Totals,
    evidence: seq<string>,
    signer: string,
    date: string)

  /** A cell or paragraph holding fixed text only. */
  function Plain(s: string): Text {
    [Lit(s)]
  }

  // ---------------------------------------------------------------------
  // Carbon intensity

  /** Emissions per unit of revenue, or zero when the revenue is not
      positive. */
  function CarbonIntensity(total: real, revenue: real): (r: real)
    ensures revenue > 0.0 ==> r * revenue == total
    ensures revenue <= 0.0 ==> r == 0.0
  {
    if revenue > 0.0 then total / revenue else 0.0
  }

  /** A non-negative footprint never shows a negative intensity, and a larger
      footprint on the same revenue never shows a smaller one. */
  lemma IntensityOrder(total: real, total': real, revenue: real)
    requires 0.0 <= total <= total'
    ensures 0.0 <= CarbonIntensity(total, revenue) <= CarbonIntensity(total', revenue)
  {
    if revenue > 0.0 {
      var r, r' := CarbonIntensity(total, revenue), CarbonIntensity(total', revenue);
      assert (r' - r) * revenue == total' - total;
    }
  }

  // ---------------------------------------------------------------------
  // The summary table

  const KgSuffix: string := " kgCO2e"

  /** The figure a cell starts with, or zero when it starts with text. */
  function FigureOf(cell: Text): real {
    match LeadingNumber(cell)
    case Some(x) => x
    case None => 0.0
  }

  /** The scope figures and total a reader takes from the value column of a
      summary table, when its rows 1 to 4 each show a figure. */
  function ReadSummary(t: seq<seq<Text>>): Option<Totals> {
    if |t| >= 5 && (forall i :: 1 <= i < 5 ==> |t[i]| == 2 && LeadingNumber(t[i][1]).Some?) then
      Some(Totals(FigureOf(t[1][1]), FigureOf(t[2][1]), FigureOf(t[3][1]), FigureOf(t[4][1])))
    else
      None
  }

  /** The six-row summary: a header, the three scopes, the total footprint
      and the carbon intensity in kgCO2e per unit of the currency. Reading
      the value column back yields exactly the totals it was built from. */
  function SummaryTable(totals: Totals, intensity: real, currency: string): (t: seq<seq<Text>>)
    ensures |t| == 6 && forall i :: 0 <= i < 6 ==> |t[i]| == 2
    ensures t[0] == [Plain("METRIC"), Plain("VALUE")]
    ensures ReadSummary(t) == Some(totals)
    ensures LeadingNumber(t[5][1]) == Some(intensity)
    ensures t[1][0] == Plain("Scope 1 (Direct Emissions)") && t[2][0] == Plain("Scope 2 (Indirect Energy)")
    ensures t[3][0] == Plain("Scope 3 (Grey Fleet)") && t[4][0] == Plain("TOTAL FOOTPRINT")
    ensures t[5][0] == Plain("CARBON INTENSITY")
    ensures forall i :: 1 <= i < 5 ==> t[i][1][1..] == [Lit(KgSuffix)]
    ensures t[5][1][1..] == [Lit(" kgCO2e / " + currency)]
  {
    [ [Plain("METRIC"), Plain("VALUE")],
      [Plain("Scope 1 (Direct Emissions)"), [Num(totals.scope1, Grouped2), Lit(KgSuffix)]],
      [Plain("Scope 2 (Indirect Energy)"), [Num(totals.scope2, Grouped2), Lit(KgSuffix)]],
      [Plain("Scope 3 (Grey Fleet)"), [Num(totals.scope3, Grouped2), Lit(KgSuffix)]],
      [Plain("TOTAL FOOTPRINT"), [Num(totals.total, Grouped2), Lit(KgSuffix)]],
      [Plain("CARBON INTENSITY"), [Num(intensity, Fixed2), Lit(" kgCO2e / " + currency)]] ]
  }

  // ---------------------------------------------------------------------
  // The detail table

  const DetailHeader: seq<Text> := [Plain("Scope"), Plain("Activity"), Plain("Qty"), Plain("Emissions (kg)")]

  /** One calculated row as the detail table shows it: scope, activity,
      quantity with its unit, and emissions. */
  function DetailRow(r: Row): (cells: seq<Text>)
    ensures |cells| == 4
    ensures cells[0] == Plain(r.scope) && cells[1] == Plain(r.activity)
    ensures LeadingNumber(cells[2]) == Some(r.quantity) && LeadingNumber(cells[3]) == Some(r.emissions)
    ensures cells[2][1..] == [Lit(" " + r.unit)]
    ensures cells[3] == [Num(r.emissions, Grouped2)]
  {
    [Plain(r.scope), Plain(r.activity), [Num(r.quantity, Grouped2), Lit(" " + r.unit)], [Num(r.emissions, Grouped2)]]
  }

  /** The detail table: the header, then one line per calculated row, in
      the rows' order. */
  function DetailTable(rows: seq<Row>): (t: seq<seq<Text>>)
    ensures |t| == |rows| + 1 && t[0] == DetailHeader
    ensures forall j :: 0 <= j < |rows| ==> t[j + 1] == DetailRow(rows[j])
    decreases |rows|
  {
    if rows == [] then [DetailHeader]
    else
      var n := |rows| - 1;
      DetailTable(rows[..n]) + [DetailRow(rows[n])]
  }

  /** The sum of the figures in one column of some table lines. */
  function ColumnSum(lines: seq<seq<Text>>, col: nat): real
    decreases |lines|
  {
    if lines == [] then 0.0
    else (if col < |lines[0]| then FigureOf(lines[0][col]) else 0.0) + ColumnSum(lines[1..], col)
  }

  lemma {:induction false} ColumnSumOfRows(lines: seq<seq<Text>>, rows: seq<Row>)
    requires |lines| == |rows|
    requires forall j :: 0 <= j < |rows| ==> lines[j] == DetailRow(rows[j])
    ensures ColumnSum(lines, 3) == EmissionsSum(rows)
    decreases |rows|
  {
    if rows != [] {
      ColumnSumOfRows(lines[1..], rows[1..]);
    }
  }

  /** The emissions column of the detail table adds up to the sum of the
      rows' emissions. */
  lemma DetailColumnTotal(rows: seq<Row>)
    ensures ColumnSum(DetailTable(rows)[1..], 3) == EmissionsSum(rows)
  {
    ColumnSumOfRows(DetailTable(rows)[1..], rows);
  }

  // ---------------------------------------------------------------------
  // Paragraph texts

  const CompanyLabel: string := "\n    <b>Company Name:</b> "

  /** The company block: name, country, reporting period, and the revenue
      with its currency. */
  function CompanyText(company: string, country: string, year: string, revenue: real, currency: string): (t: Text)
    ensures |t| == 3 && t[1] == Num(revenue, Grouped2)
    ensures t[0].Lit? && |CompanyLabel + company| <= |t[0].s| && t[0].s[..|CompanyLabel + company|] == CompanyLabel + company
    ensures t[2] == Lit(" " + currency + "<br/>\n    ")
  {
    var head := CompanyLabel + company + "<br/>\n    <b>Site Country:</b> " + country
      + "<br/>\n    <b>Reporting Period:</b> " + year + "<br/>\n    <b>Annual Revenue:</b> ";
    assert head[..|CompanyLabel + company|] == CompanyLabel + company;
    [Lit(head), Num(revenue, Grouped2), Lit(" " + currency + "<br/>\n    ")]
  }

  const BoundaryText: string :=
    "\n    <b>BOUNDARY STATEMENT:</b><br/>\n    This report covers <b>Scope 1</b> (Direct), <b>Scope 2</b> (Energy Indirect), and selected <b>Scope 3</b> \n    (Grey Fleet / Business Travel). Excludes upstream/downstream Scope 3 categories unless noted.\n    Calculations use <b>ADEME Base Carbone</b> emission factors.\n    "

  const EvidenceLead: string := "Self-declared by supplier. Evidence attached: "
  const NoEvidence: string := "Self-Declaration (No supporting evidence attached)."

  /** The number of attached files a reader takes from an evidence sentence:
      the count it states, or zero for any other sentence. */
  function AttachedCount(t: Text): nat {
    if |t| == 3 && t[0] == Lit(EvidenceLead) && t[1].Count? && t[2] == Lit(" file(s).") then t[1].n else 0
  }

  /** The evidence sentence: the number of attached files when there is at
      least one, the self-declaration wording otherwise. */
  function EvidenceText(files: nat): (t: Text)
    ensures AttachedCount(t) == files
    ensures files == 0 <==> t == Plain(NoEvidence)
  {
    if files > 0 then [Lit(EvidenceLead), Count(files), Lit(" file(s).")] else Plain(NoEvidence)
  }

  const AttestationLead: string := "\n    <b>ATTESTATION:</b><br/>\n    I, <b>"
  const AttestationTail: string :=
    "</b>, certify that the activity data and revenue provided are accurate to the best of my knowledge.\n    <br/><br/>\n    __________________________<br/>\n    Authorized Signature\n    "

  /** The name an attestation text is signed with, when it has the
      attestation's fixed lead and tail. */
  function SignerNamed(s: string): Option<string> {
    var a, b := |AttestationLead|, |AttestationTail|;
    if |s| >= a + b && s[..a] == AttestationLead && s[|s| - b..] == AttestationTail then Some(s[a..|s| - b]) else None
  }

  /** The attestation: the signer's name between the fixed certification
      wording; the name can be read back from it unchanged. */
  function AttestationText(signer: string): (s: string)
    ensures SignerNamed(s) == Some(signer)
  {
    var s := AttestationLead + signer + AttestationTail;
    assert s[..|AttestationLead|] == AttestationLead;
    assert s[|s| - |AttestationTail|..] == AttestationTail;
    assert s[|AttestationLead|..|s| - |AttestationTail|] == signer;
    s
  }

  // ---------------------------------------------------------------------
  // The story

  const DeclarationTitle: string := "<b>CORPORATE CARBON FOOTPRINT DECLARATION</b>"
  const MethodologyLine: string := "Methodology Aligned with GHG Protocol & ISO 14064-1"
  const SummaryHeading: string := "<b>EMISSIONS SUMMARY</b>"
  const DetailHeading: string := "<b>Detailed Breakdown:</b>"
  const EvidenceHeading: string := "<b>Evidence & Assurance:</b>"

  /** The title, the methodology line, the date and the gaps around them. */
  function HeaderBlocks(date: string): seq<Block> {
    [ Paragraph(Plain(DeclarationTitle), Title),
      Spacer(12),
      Paragraph(Plain(MethodologyLine), Normal),
      Paragraph(Plain("Date: " + date), Normal),
      Spacer(20) ]
  }

  /** The company details and the boundary statement. */
  function ProfileBlocks(d: Declaration): seq<Block> {
    [ Paragraph(CompanyText(d.company, d.country, d.year, d.revenue, d.currency), Normal),
      Spacer(15),
      Paragraph(Plain(BoundaryText), Normal),
      Spacer(20) ]
  }

  function SummaryOf(d: Declaration): seq<seq<Text>> {
    SummaryTable(d.totals, CarbonIntensity(d.totals.total, d.revenue), d.currency)
  }

  /** The summary heading and table. */
  function SummaryBlocks(d: Declaration): seq<Block> {
    [ Paragraph(Plain(SummaryHeading), Heading3),
      Spacer(5),
      Table(SummaryOf(d)),
      Spacer(20) ]
  }

  /** The detail heading and table, only when there are calculated rows. */
  function DetailBlocks(rows: seq<Row>): seq<Block> {
    if rows == [] then []
    else [Paragraph(Plain(DetailHeading), Heading4), Table(DetailTable(rows))]
  }

  /** The evidence heading and sentence, then the attestation. */
  function ClosingBlocks(d: Declaration): seq<Block> {
    [ Spacer(20),
      Paragraph(Plain(EvidenceHeading), Heading4),
      Paragraph(EvidenceText(|d.evidence|), Normal),
      Spacer(30),
      Paragraph(Plain(AttestationText(d.signer)), Normal) ]
  }

  /** The whole report, in layout order: eighteen blocks, or twenty with
      the detail section, opening with the title. */
  function Story(d: Declaration): (s: seq<Block>)
    ensures |s| == (if d.rows == [] then 18 else 20)
    ensures s[0] == Paragraph(Plain(DeclarationTitle), Title)
  {
    HeaderBlocks(d.date) + ProfileBlocks(d) + SummaryBlocks(d) + DetailBlocks(d.rows) + ClosingBlocks(d)
  }

  /** Builds the detail table line by line: the header, then one line per
      calculated row. */
  method BuildDetailTable(rows: seq<Row>) returns (data: seq<seq<Text>>)
    ensures data == DetailTable(rows)
  {
    data := [DetailHeader];
    for i := 0 to |rows|
      invariant data == DetailTable(rows[..i])
    {
      var row := rows[i];
      var qty := [Num(row.quantity, Grouped2), Lit(" " + row.unit)];
      var line := [Plain(row.scope), Plain(row.activity), qty, [Num(row.emissions, Grouped2)]];
      assert line == DetailRow(row);
      assert rows[..i + 1][..i] == rows[..i];
      data := data + [line];
    }
    assert rows[..|rows|] == rows;
  }

  /** Appends the title, the methodology line, the date and the gaps
      around them. */
  method AppendHeader(story0: seq<Block>, date: string) returns (story: seq<Block>)
    ensures story == story0 + HeaderBlocks(date)
  {
    story := story0;
    story := story + [Paragraph(Plain(DeclarationTitle), Title)];
    story := story + [Spacer(12)];
    story := story + [Paragraph(Plain(MethodologyLine), Normal)];
    story := story + [Paragraph(Plain("Date: " + date), Normal)];
    story := story + [Spacer(20)];
  }

  /** Appends the company details and the boundary statement. */
  method AppendProfile(story0: seq<Block>, d: Declaration) returns (story: seq<Block>)
    ensures story == story0 + ProfileBlocks(d)
  {
    story := story0;
    story := story + [Paragraph(CompanyText(d.company, d.country, d.year, d.revenue, d.currency), Normal)];
    story := story + [Spacer(15)];
    story := story + [Paragraph(Plain(BoundaryText), Normal)];
    story := story + [Spacer(20)];
  }

  /** Appends the summary heading and table. */
  method AppendSummary(story0: seq<Block>, d: Declaration) returns (story: seq<Block>)
    ensures story == story0 + SummaryBlocks(d)
  {
    var intensity := CarbonIntensity(d.totals.total, d.revenue);
    story := story0;
    story := story + [Paragraph(Plain(SummaryHeading), Heading3)];
    story := story + [Spacer(5)];
    story := story + [Table(SummaryTable(d.totals, intensity, d.currency))];
    story := story + [Spacer(20)];
  }

  /** Appends the detail heading and table when there are rows. */
  method AppendDetail(story0: seq<Block>, rows: seq<Row>) returns (story: seq<Block>)
    ensures story == story0 + DetailBlocks(rows)
  {
    story := story0;
    if rows != [] {
      story := story + [Paragraph(Plain(DetailHeading), Heading4)];
      var data := BuildDetailTable(rows);
      story := story + [Table(data)];
    }
  }

  /** Appends the evidence heading and sentence, then the attestation. */
  method AppendClosing(story0: seq<Block>, d: Declaration) returns (story: seq<Block>)
    ensures story == story0 + ClosingBlocks(d)
  {
    story := story0;
    story := story + [Spacer(20)];
    story := story + [Paragraph(Plain(EvidenceHeading), Heading4)];
    story := story + [Paragraph(EvidenceText(|d.evidence|), Normal)];
    story := story + [Spacer(30)];
    story := story + [Paragraph(Plain(AttestationText(d.signer)), Normal)];
  }

  /** Lays the report out section by section, in layout order. */
  method BuildStory(d: Declaration) returns (story: seq<Block>)
    ensures story == Story(d)
  {
    story := AppendHeader([], d.date);
    story := AppendProfile(story, d);
    story := AppendSummary(story, d);
    story := AppendDetail(story, d.rows);
    story := AppendClosing(story, d);
    assert [] + HeaderBlocks(d.date) == HeaderBlocks(d.date);
  }

  // ---------------------------------------------------------------------
  // Properties of the story

  /** The story split into the blocks before the detail section, the
      detail section, and the blocks after it. */
  lemma StoryParts(d: Declaration)
    ensures var pre := HeaderBlocks(d.date) + ProfileBlocks(d) + SummaryBlocks(d);
      |pre| == 13 && Story(d) == pre + DetailBlocks(d.rows) + ClosingBlocks(d)
      && pre[3] == Paragraph(Plain("Date: " + d.date), Normal) && pre[11] == Table(SummaryOf(d))
      && pre[5] == Paragraph(CompanyText(d.company, d.country, d.year, d.revenue, d.currency), Normal)
      && (forall k :: 0 <= k < 13 && k != 11 ==> !pre[k].Table?)
  {
  }

  /** The report has eighteen blocks, or twenty with the detail section;
      the date is the fourth block, the company details the sixth, the
      summary table the twelfth, the
      detail table (when present) the fifteenth, the evidence sentence the
      third from last and the attestation the last. */
  lemma StoryLayout(d: Declaration)
    ensures var s := Story(d);
      && |s| == (if d.rows == [] then 18 else 20)
      && s[3] == Paragraph(Plain("Date: " + d.date), Normal)
      && s[5] == Paragraph(CompanyText(d.company, d.country, d.year, d.revenue, d.currency), Normal)
      && s[11] == Table(SummaryOf(d))
      && (d.rows != [] ==> s[14] == Table(DetailTable(d.rows)))
      && s[|s| - 3] == Paragraph(EvidenceText(|d.evidence|), Normal)
      && s[|s| - 1] == Paragraph(Plain(AttestationText(d.signer)), Normal)
  {
    StoryParts(d);
    var s := Story(d);
    var post := ClosingBlocks(d);
    assert s[|s| - 3] == post[2];
    assert s[|s| - 1] == post[4];
  }

  /** The summary table and the detail table are the only tables. */
  lemma OnlyTables(d: Declaration)
    ensures var s := Story(d);
      forall k :: 0 <= k < |s| ==> (s[k].Table? <==> k == 11 || (d.rows != [] && k == 14))
  {
    StoryParts(d);
    var s := Story(d);
    var pre := HeaderBlocks(d.date) + ProfileBlocks(d) + SummaryBlocks(d);
    var mid := DetailBlocks(d.rows);
    var post := ClosingBlocks(d);
    forall k | 0 <= k < |s|
      ensures s[k].Table? <==> k == 11 || (d.rows != [] && k == 14)
    {
      if k < 13 {
        assert s[k] == pre[k];
      } else if k < 13 + |mid| {
        assert s[k] == mid[k - 13];
      } else {
        assert s[k] == post[k - 13 - |mid|];
      }
    }
  }

  /** The detail section appears exactly when there is at least one
      calculated row, and it then lists every row. */
  lemma DetailShownIffRows(d: Declaration)
    ensures (exists k :: 0 <= k < |Story(d)| && Story(d)[k] == Table(DetailTable(d.rows))) <==> d.rows != []
  {
    StoryLayout(d);
    OnlyTables(d);
    var s := Story(d);
    if d.rows == [] {
      if exists k :: 0 <= k < |s| && s[k] == Table(DetailTable(d.rows)) {
        var k :| 0 <= k < |s| && s[k] == Table(DetailTable(d.rows));
        assert s[k].Table?;
        assert s[11] == Table(SummaryOf(d));
        assert |DetailTable(d.rows)| == 1;
      }
    } else {
      assert s[14] == Table(DetailTable(d.rows));
    }
  }

  /** When the totals are the summary of the rows and every row falls in one
      of the three scopes, the detail table's emissions column adds up to
      the TOTAL FOOTPRINT the summary table shows, and that total is the sum
      of the three scope lines above it. */
  lemma DetailAgreesWithSummary(d: Declaration)
    requires d.totals == Summarize(d.rows)
    requires forall j :: 0 <= j < |d.rows| ==> Recognised(d.rows[j].scope)
    ensures var shown := ReadSummary(SummaryOf(d)).value;
      && shown.total == shown.scope1 + shown.scope2 + shown.scope3
      && ColumnSum(DetailTable(d.rows)[1..], 3) == shown.total
  {
    DetailColumnTotal(d.rows);
    TotalIsEmissionsSum(d.rows);
  }
}
