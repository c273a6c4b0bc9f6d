# Supplier ESG carbon-footprint declaration — a Dafny model

This project models the core of `app.py` in the supplier ESG response tool. The tool:

- takes a company's yearly activity data (fuels, refrigerants, electricity, heat and grey-fleet kilometres);
- multiplies each quantity by an ADEME Base Carbone emission factor;
- sums the results into GHG Protocol Scope 1, 2 and 3 buckets;
- lays out a PDF "Corporate Carbon Footprint Declaration".

The model has four modules:

- `Text` (`text.dfy`): the text pieces the report shows. Numbers are kept as values tagged with the format they are printed in.
- `Emissions` (`emissions.dfy`): covers the following.
  - The `ActivityInput` and `Factor` records and the calculated `Row`.
  - The scope label, which is the category text before the first `" - "`.
  - `calculate_emissions`, modelled as the method `CalculateEmissions` with a loop. The method is proved equal to the specification function `Calculate`.
  - `summarize`, modelled as `Summarize`.
  - Lemmas relating the calculated rows to the entries they come from, and the summary to the rows.
- `Config` (`config.dfy`): covers the following.
  - The `FACTORS` registry.
  - The fixed mapping from the eleven form answers to calculator inputs.
  - End-to-end lemmas about what the application itself computes from those answers.
- `Report` (`report.dfy`): covers the following.
  - The data decisions of `build_pdf`: the carbon intensity, the six-row summary table, the detail table (present only when there are rows), the company, evidence and attestation texts, and the order of the blocks.
  - `BuildStory`, a method that appends the blocks section by section as the source does. It is proved equal to the specification function `Story`.

Quantities and factors are modelled as `real`, so every sum and product is exact. The ordered input dictionary becomes a sequence of (key, input) pairs in insertion order.

## Model

| member | source | states |
|---|---|---|
| Emissions.Calculate | app.py:27-46 | Never yields more rows than inputs, and every row has a positive quantity. `SurvivorIndices` and `CalculateFollowsSurvivors` pin down exactly which rows come out and what each holds. |
| Emissions.CalculateEmissions | app.py:27-46 | The loop returns exactly the rows of the specification `Calculate`. There are never more rows than inputs. |
| Emissions.SurvivorIndices | app.py:29-33 | Lists, in strictly increasing order, the positions of the entries that yield a row. A position is listed if and only if the entry's quantity is positive and its key has a factor. |
| Emissions.CalculateFollowsSurvivors | app.py:29-45 | The rows are one-to-one and in order with the surviving entries. Each row copies its entry's category, activity name, quantity and unit verbatim. Its emissions are quantity × factor value. Its factor and source references are built from that entry's factor. Every other entry is skipped without error. |
| Emissions.CalculateAppend | app.py:29-45 | Calculating over concatenated inputs gives the two row lists one after the other, so each entry is handled independently and in order. |
| Emissions.RowsRecognised | app.py:37 | If every input category's label is one of the three scope labels, so is every row's scope. |
| Emissions.ScopeOf | app.py:37 | The label is never longer than the category. `ScopeOfIsFirstSplit` characterises it completely as the text before the first separator. |
| Emissions.ScopeOfIsFirstSplit | app.py:37 | The scope label is a prefix of the category that contains no separator. Either it ends exactly where the first `" - "` starts, or it is the whole category when there is no separator. |
| Emissions.ScopeOfJoined | app.py:37 | For a category written `<scope> - <rest>` whose scope part has no `-`, the label is that scope part. |
| Emissions.Summarize | app.py:48-53 | No rows give all zeros. Each bucket is the sum of the emissions of the rows with exactly that scope label. The total is the sum of the three buckets. |
| Emissions.ScopeSum | app.py:50-52 | A scope's sum is non-negative when every row's emissions are. |
| Emissions.SummarizeAppend | app.py:48-53 | The summary of concatenated rows is the bucket-wise sum of the two summaries. |
| Emissions.TotalIsRecognisedSum | app.py:50-53 | The total counts each row with one of the three scope labels exactly once, and no other row. |
| Emissions.TotalIsEmissionsSum | app.py:50-53 | When every row has one of the three scope labels, the total is the sum of all rows' emissions. |
| Emissions.UnrecognisedRowIgnored | app.py:50-53 | Inserting a row whose scope is none of the three labels changes no bucket and not the total. |
| Emissions.SummaryOfCalculation | app.py:27-53 | Summarising the calculated rows equals adding up each entry's contribution (quantity × factor in its scope's bucket) in input order. |
| Emissions.TotalOfCalculation | app.py:27-53 | When every surviving entry's category names one of the three scopes, the total is the sum of quantity × factor over exactly the surviving entries. |
| Emissions.SameScope | app.py:50-53 | Entries that each add an amount to the same scope together add the sum of those amounts to that scope, and only to it. |
| Emissions.MonotoneInQuantity | app.py:27-53 | With non-negative factors, raising the quantity of any one entry lowers no scope bucket and not the total. This includes raising it from zero or a negative value into a kept row. |
| Emissions.EntriesTotalsMonotone | app.py:27-53 | The same monotonicity for the entry-by-entry contributions. |
| Emissions.BucketTotal | app.py:50-53 | Emissions under one of the three scope labels reach the total in full. Under any other label they reach nothing. |
| Config.FactorValues | app.py:194-206 | The registry holds each of the eleven keys with its published factor value. |
| Config.FactorsNonNegative | app.py:194-206 | Every factor in the registry is non-negative. |
| Config.CategoryScopes | app.py:282-294 | The five categories of the form have the scope labels Scope 1 (stationary, mobile, fugitive), Scope 2 (energy) and Scope 3 (business travel). |
| Config.StationaryTotals | app.py:283-285 | Gas, heating oil and propane add their positive quantities × 0.244, 3.2 and 3.1 to Scope 1 only. |
| Config.MobileTotals | app.py:286-287 | Diesel and petrol add their positive quantities × 3.16 and 2.8 to Scope 1 only. |
| Config.FugitiveTotals | app.py:288-290 | The R410A, R32 and R134a refills add their positive quantities × 2088, 675 and 1430 to Scope 1 only. |
| Config.EnergyTotals | app.py:291-292 | Electricity and district heat add their positive quantities × 0.052 and 0.170 to Scope 2 only. |
| Config.TravelTotals | app.py:293 | Grey-fleet kilometres add their positive quantity × 0.218 to Scope 3 only. |
| Config.AppSummary | app.py:282-298 | End to end: for any form answers, scope 1 is the stationary, mobile and fugitive amounts, scope 2 the energy amount, scope 3 the travel amount, and the total their sum. Answers that are not positive count zero. |
| Config.AppInputs | app.py:282-294 | The form builds eleven inputs, and every input's key has a factor in the registry, so only the quantity decides whether a row comes out. `AppSummary` and `AppCategories` state what the inputs amount to. |
| Config.AppCategories | app.py:282-294 | Every input the form builds has a category naming one of the three scopes. |
| Config.AppRowsInScopes | app.py:282-298 | Every row calculated from the form is in one of the three scopes, so the summary's total is the sum of all calculated rows' emissions. |
| Report.CarbonIntensity | app.py:94 | With positive revenue, intensity × revenue is the total. With revenue zero or negative, the intensity is exactly 0, and there is no division. |
| Report.IntensityOrder | app.py:94 | A non-negative footprint gives a non-negative intensity, and a larger footprint on the same revenue never gives a smaller one. |
| Report.SummaryTable | app.py:99-106 | The table has six rows of two cells: the METRIC/VALUE header, then the lines labelled Scope 1 (Direct Emissions), Scope 2 (Indirect Energy), Scope 3 (Grey Fleet), TOTAL FOOTPRINT and CARBON INTENSITY, in that order. Reading back the four kgCO2e lines yields exactly the totals the table was built from, each followed by " kgCO2e". The last line shows the intensity followed by " kgCO2e / " and the currency. |
| Report.DetailRow | app.py:134-141 | A detail line has four cells: the row's scope and its activity as text, then the row's quantity figure followed by its unit, then a cell holding only its emissions figure. |
| Report.DetailTable | app.py:131-141 | The table is a header followed by one line per calculated row, in the rows' order. |
| Report.BuildDetailTable | app.py:133-141 | The line-by-line loop builds exactly that detail table. |
| Report.DetailColumnTotal | app.py:131-141 | The emissions column of the detail table adds up to the sum of the rows' emissions. |
| Report.CompanyText | app.py:74-79 | The company block starts with the company label and name, and shows the revenue figure followed by the currency. |
| Report.EvidenceText | app.py:159-163 | The sentence states the number of attached files when there is at least one. It is the fixed self-declaration notice exactly when there are none. |
| Report.AttestationText | app.py:168-174 | The attestation embeds the signer's name between the fixed certification wording, and the name reads back from it unchanged. |
| Report.BuildStory | app.py:56-175 | Appending the sections one by one yields exactly the specification story: header, company details, boundary, summary, optional detail, evidence and attestation. |
| Report.Story | app.py:61-175 | The report has eighteen blocks, or twenty with the detail section, and opens with the title. `StoryLayout` and `OnlyTables` give the position of every block built from the declaration's data: date, company details, summary table, detail table, evidence sentence and attestation. |
| Report.StoryLayout | app.py:61-175 | The report has 18 blocks, or 20 with the detail section. The date is the 4th block, the company details the 6th, the summary table the 12th and the detail table the 15th. The evidence sentence is third from last and the attestation is last. |
| Report.OnlyTables | app.py:99-153 | The summary table and, when there are rows, the detail table are the only tables in the report. |
| Report.DetailShownIffRows | app.py:131 | The detail table appears in the report if and only if there is at least one calculated row. |
| Report.DetailAgreesWithSummary | app.py:94-141 | Suppose the totals summarise the rows and every row is in one of the three scopes. Then the summary's total line is the sum of its three scope lines, and the detail table's emissions column adds up to that total. |

## Left out

- The Streamlit wizard, its widgets and `st.session_state` (app.py:191-326) are UI and ambient session state.
  - The answers reach the model as an `Answers` value.
  - The signer name, the evidence file names and the company details reach it as fields of a `Declaration`.
- The form's validation is not modelled. This covers company name and revenue required, the signer name at least three characters, and the company name stripped and upper-cased. It happens in the UI before `build_pdf` is called, and `build_pdf` itself checks none of these values.
- ReportLab typesetting is left out. This covers the page template, the document title, paragraph and table styles, column widths, colours, the footer drawn on every page, and `doc.build` into a byte buffer. These are foreign library calls producing binary output. Blocks keep only their text, their style name and spacer heights.
- ReportLab parses paragraph text as markup. The company name, country, reporting period, currency and signer name are inserted into that markup unescaped. A value containing `<` or `&` is therefore not shown as written, and may make the parser raise an error. The model treats paragraph text as the string handed to ReportLab. The read-back properties of `CompanyText` and `AttestationText` hold for that string, not for the rendered page.
- `datetime.now()` is left out. The date is an input string, already formatted.
- Number-to-text rendering (`:,.2f`, `.2f`, `str()` of a float, a decimal count) is kept abstract. A number is a value tagged with its format.
- Floating-point rounding is not modelled. Quantities, factors, products and sums are exact `real` values.
- pandas is replaced by sequences of rows and recursive sums. This covers the DataFrame, boolean filtering, `.sum()` and `iterrows`.
- The registry stores the three refrigerant factors as integers in the source. The model holds them as the equal reals 2088.0, 675.0 and 1430.0. The factor reference text keeps only the value, so how Python prints an `int` versus a `float` is not modelled.
- Report.CompanyText: the contract reads back the company name, the revenue figure and the currency. It does not state where the country and reporting period sit in the text, although the function places them as the source does.
