# Morphological chart tables in Dafny

A model of the table-layout core of morphological-engine-docx. This Java
library turns already computed Arabic conjugations into Word tables.

- The **detailed chart** has seven columns: three data columns per side and a
  border-less spacer column between them. It is built from caption rows,
  conjugation rows and separator rows.
- The **abbreviated chart** has four columns. Per conjugation it has a title
  row, a header row, active, passive, command and adverb rows, and a separator.
- The **chart engine** and the **chart adapter** decide which tables go into
  the document, and in what order: a table of contents, then per chart the
  abbreviated table and then the detailed table.

The docx4j `TableAdapter` is modelled as an append-only grid class
(`Table.TableAdapter`). The adapters are classes whose methods append rows to it,
each proved against a function that states the rows it must append. Lemmas
about those functions state the layout facts:

- every row tiles its grid;
- each CONTINUE merge has a RESTART or CONTINUE above it;
- rows appear in a fixed order;
- a row appears exactly when its data does.

Java `null` is `Option`. The `NullPointerException`s the code raises on null
records, headers, labels, radicals, array elements and charts are
`Fault.NullPointer` results; the fields that stay plain values are listed
under "## Left out". Words are symbolic terms: a
sequence of letters, space-joined words, or "and"-joined words. The joining
text itself belongs to a library outside this model.

Modules, one per file: `Wrappers`, `Content` (words, runs, paragraphs),
`Conjugation` (the input records), `Table`, `WmlHelper`, `Documents` (document
parts and the build that stops at the first exception), `Detailed`,
`Abbreviated`, `ChartEngine`, `ChartAdapter`.

Behaviour of the code worth noting:

- Detailed conjugation rows always have three cells per side. No cells are
  merged when the dual is missing.
- `addNounPairs` only iterates over the pairs it is given. It does no padding
  and no left/right swapping.
- The caption paragraph helper called at `DetailedConjugationAdapter.java:126`
  is not defined in `WmlHelper`. It is modelled as `getArabicTextP(value,
  pStyle)` with the caption style.
- The data cells of a conjugation row (`DetailedConjugationAdapter.java:141-166`)
  pass the `String` from `toLabel().toUnicode()` to `getArabicTextP`, whose
  only one-argument overload takes an `ArabicSupport`. The model writes the
  root word's label word into the cell, as that overload would.
- The default `ChartConfiguration` is modelled with every omit flag false.

## Model

| member | source | states |
|---|---|---|
| Table.TableAdapter.StartTable | src/main/java/com/alphasystem/app/morphologicalengine/docx/DetailedConjugationAdapter.java:27 | a new table has exactly the given column widths, no rows and no open row |
| Table.TableAdapter.StartRow | src/main/java/com/alphasystem/app/morphologicalengine/docx/WmlHelper.java:75 | opens an empty row; the finished rows and widths are unchanged |
| Table.TableAdapter.AddColumn | src/main/java/com/alphasystem/app/morphologicalengine/docx/WmlHelper.java:76 | appends one cell (column, span defaulting to 1, merge marker, borders flag, paragraphs) to the open row and nothing else |
| Table.TableAdapter.EndRow | src/main/java/com/alphasystem/app/morphologicalengine/docx/WmlHelper.java:77 | appends the open row to the table and closes it: rows are only ever appended |
| Table.ContinueHasRestart | src/main/java/com/alphasystem/app/morphologicalengine/docx/DetailedConjugationAdapter.java:127-152 | in anchored rows every CONTINUE cell of the spacer column goes back, through CONTINUE cells only, to a RESTART above it |
| WmlHelper.SeparatorRow | src/main/java/com/alphasystem/app/morphologicalengine/docx/WmlHelper.java:73-78 | one cell at column 0 spanning the whole grid, borders suppressed, no merge; it tiles the grid |
| WmlHelper.AddSeparatorRow | src/main/java/com/alphasystem/app/morphologicalengine/docx/WmlHelper.java:73-78 | appends exactly the separator row and leaves no row open |
| WmlHelper.ValueOf | src/main/java/com/alphasystem/app/morphologicalengine/docx/DetailedConjugationAdapter.java:139-140 | a cell value is null exactly when the conjugated word is null |
| WmlHelper.RootWordOrSpace | src/main/java/com/alphasystem/app/morphologicalengine/docx/WmlHelper.java:98-106 | the root word of a tense, or WORD_SPACE when the tense or its root word is null |
| WmlHelper.TitleWord | src/main/java/com/alphasystem/app/morphologicalengine/docx/WmlHelper.java:94-110 | past tense then present tense joined by a space, each missing piece WORD_SPACE; both WORD_SPACE for a null active line |
| WmlHelper.AndChain | src/main/java/com/alphasystem/app/morphologicalengine/docx/WmlHelper.java:115-118 | succeeds exactly when no element is null (else NullPointerException); the joined word reads back as the labels in array order |
| WmlHelper.MultiWord | src/main/java/com/alphasystem/app/morphologicalengine/docx/WmlHelper.java:112-121 | WORD_SPACE for a null or empty array; the label itself for a one-element array |
| WmlHelper.MultiWordLeaves | src/main/java/com/alphasystem/app/morphologicalengine/docx/WmlHelper.java:112-121 | for an array without nulls the "and"-joined word reads back as exactly the sequence of labels |
| WmlHelper.GetMultiWord | src/main/java/com/alphasystem/app/morphologicalengine/docx/WmlHelper.java:112-121 | the loop computes MultiWord, including the exception on a null element |
| WmlHelper.ArabicTextP | src/main/java/com/alphasystem/app/morphologicalengine/docx/WmlHelper.java:157-168 | one paragraph in the given style holding one plain run: the value, or WORD_SPACE for null |
| WmlHelper.PrefixedArabicTextP | src/main/java/com/alphasystem/app/morphologicalengine/docx/WmlHelper.java:127-155 | a null prefix gives the unprefixed paragraph; otherwise a prefix run in the prefix style followed by a space, then the same run the unprefixed paragraph holds |
| Documents.MainDocumentPart.constructor | src/main/java/com/alphasystem/app/morphologicalengine/docx/WmlHelper.java:67-69 | the document buildDocument receives starts with no content |
| Documents.TableOfContentsParts | src/main/java/com/alphasystem/app/morphologicalengine/docx/MorphologicalChartEngine.java:61-67 | a table of contents is added exactly when neither the abbreviated charts nor the table of contents is omitted, and at most one |
| Documents.SequenceStops | src/main/java/com/alphasystem/app/morphologicalengine/docx/MorphologicalChartEngine.java:68-69 | once a chart has raised, the later charts add nothing: the exception leaves the loop |
| Documents.SequenceStep | src/main/java/com/alphasystem/app/morphologicalengine/docx/MorphologicalChartEngine.java:68-69 | one more chart adds its parts after those built so far and raises what it raises; after an exception nothing further is added |
| Documents.SequenceOfPairs | src/main/java/com/alphasystem/app/morphologicalengine/docx/MorphologicalChartEngine.java:68-69 | when every chart adds two parts and raises nothing, the parts appear chart by chart in chart order |
| Documents.SequenceOfCorrections | src/main/java/com/alphasystem/app/morphologicalengine/docx/MorphologicalChartEngine.java:68-69 | steps that only raise where corrected ones do not, with the same parts, build a prefix of the corrected sequence, and the same sequence when they raise nothing |
| Documents.SequenceAddsNoToc | src/main/java/com/alphasystem/app/morphologicalengine/docx/MorphologicalChartEngine.java:68-69 | steps that add no table of contents add none in sequence |
| Detailed.ColumnProperties | src/main/java/com/alphasystem/app/morphologicalengine/docx/DetailedConjugationAdapter.java:30-32 | borders are suppressed exactly when the object is null |
| Detailed.CaptionRowLayout | src/main/java/com/alphasystem/app/morphologicalengine/docx/DetailedConjugationAdapter.java:120-129 | caption cells at columns 0 and 4 spanning 3, the spacer at column 3 restarting its merge; the row tiles 7 columns; a caption has nil borders exactly when it is null |
| Detailed.SlotValue | src/main/java/com/alphasystem/app/morphologicalengine/docx/DetailedConjugationAdapter.java:137-149 | a null tuple writes null in all three slots; otherwise plural, dual and singular labels (null stays null) |
| Detailed.ConjugationRowLayout | src/main/java/com/alphasystem/app/morphologicalengine/docx/DetailedConjugationAdapter.java:135-168 | seven span-1 cells at columns 0..6 on every row, spacer CONTINUE at column 3; a side has nil borders exactly when its tuple is null, and its cells hold the slot values |
| Detailed.ConjugationRows | src/main/java/com/alphasystem/app/morphologicalengine/docx/DetailedConjugationAdapter.java:131-135 | no row when both tuples are null, exactly one row otherwise |
| Detailed.PairBlock | src/main/java/com/alphasystem/app/morphologicalengine/docx/DetailedConjugationAdapter.java:60-81 | a pair block is its caption row, the body rows, and the separator row last |
| Detailed.PairBlockIsBlock | src/main/java/com/alphasystem/app/morphologicalengine/docx/DetailedConjugationAdapter.java:49-109 | a pair block opens the spacer merge in its caption row, continues it on every body row and closes with a merge-free separator |
| Detailed.VerbBodyRows | src/main/java/com/alphasystem/app/morphologicalengine/docx/DetailedConjugationAdapter.java:62-80 | tense body rows in the order masculine third, feminine third, masculine second, feminine second, first person |
| Detailed.NounBodyRows | src/main/java/com/alphasystem/app/morphologicalengine/docx/DetailedConjugationAdapter.java:97-107 | noun body rows in the order nominative, accusative, genitive |
| Detailed.TensePairRows | src/main/java/com/alphasystem/app/morphologicalengine/docx/DetailedConjugationAdapter.java:49-82 | a null tense pair adds no rows; otherwise 2 to 7 rows starting with its caption row |
| Detailed.NounPairRows | src/main/java/com/alphasystem/app/morphologicalengine/docx/DetailedConjugationAdapter.java:84-109 | a null noun pair adds no rows; otherwise 2 to 5 rows starting with its caption row |
| Detailed.RecordRowsUnfold | src/main/java/com/alphasystem/app/morphologicalengine/docx/DetailedConjugationAdapter.java:36-44 | a record adds active tense, active participle, verbal nouns, passive tense, passive participle, imperative/forbidding, adverbs, in that order |
| Detailed.DetailedChart | src/main/java/com/alphasystem/app/morphologicalengine/docx/DetailedConjugationAdapter.java:35-47 | the chart succeeds exactly when no record is null (else NullPointerException) and is then the records' rows in array order |
| Detailed.NullRecordFails | src/main/java/com/alphasystem/app/morphologicalengine/docx/DetailedConjugationAdapter.java:36-37 | a null record anywhere in the array raises NullPointerException |
| Detailed.AllRecordsBuild | src/main/java/com/alphasystem/app/morphologicalengine/docx/DetailedConjugationAdapter.java:35-47 | an array without null records builds to its rows |
| Detailed.DetailedChartWellFormed | src/main/java/com/alphasystem/app/morphologicalengine/docx/DetailedConjugationAdapter.java:120-168 | every row of a chart tiles the 7 columns and every CONTINUE has a RESTART or CONTINUE at its column in the row above |
| Detailed.DetailedChartSpans | src/main/java/com/alphasystem/app/morphologicalengine/docx/DetailedConjugationAdapter.java:120-168 | every row's spans sum to 7 |
| Detailed.DetailedDocumentParts | src/main/java/com/alphasystem/app/morphologicalengine/docx/ChartAdapter.java:11-14 | the adapter adds one detailed table holding its rows, or nothing and NullPointerException |
| Detailed.DetailedConjugationAdapter.constructor | src/main/java/com/alphasystem/app/morphologicalengine/docx/DetailedConjugationAdapter.java:25-28 | a null or empty array becomes an empty one; the table starts with the seven widths and no rows |
| Detailed.DetailedConjugationAdapter.AddCaptionRow | src/main/java/com/alphasystem/app/morphologicalengine/docx/DetailedConjugationAdapter.java:120-129 | appends exactly the caption row |
| Detailed.DetailedConjugationAdapter.AddConjugationRow | src/main/java/com/alphasystem/app/morphologicalengine/docx/DetailedConjugationAdapter.java:131-169 | appends the conjugation row, or nothing when both tuples are null |
| Detailed.DetailedConjugationAdapter.AddTensePair | src/main/java/com/alphasystem/app/morphologicalengine/docx/DetailedConjugationAdapter.java:49-82 | appends exactly TensePairRows |
| Detailed.DetailedConjugationAdapter.AddNounPair | src/main/java/com/alphasystem/app/morphologicalengine/docx/DetailedConjugationAdapter.java:84-109 | appends exactly NounPairRows |
| Detailed.DetailedConjugationAdapter.AddNounPairs | src/main/java/com/alphasystem/app/morphologicalengine/docx/DetailedConjugationAdapter.java:111-118 | appends each pair's rows in array order, nothing for a null or empty array |
| Detailed.DetailedConjugationAdapter.AddDetailedConjugation | src/main/java/com/alphasystem/app/morphologicalengine/docx/DetailedConjugationAdapter.java:37-43 | appends exactly the record's rows |
| Detailed.FirstNull | src/main/java/com/alphasystem/app/morphologicalengine/docx/DetailedConjugationAdapter.java:35-36 | the index of the first null record: every record before it is non-null, the record at it is null, and it falls inside the array exactly when some record is null |
| Detailed.DetailedConjugationAdapter.AddRecordsUntilNull | src/main/java/com/alphasystem/app/morphologicalengine/docx/DetailedConjugationAdapter.java:35-43 | the loop adds each record's rows in array order and stops at the first null record, leaving the column widths unchanged and no row open |
| Detailed.StopIsFirstNull | src/main/java/com/alphasystem/app/morphologicalengine/docx/DetailedConjugationAdapter.java:35-36 | a loop that has passed only non-null records and stops at a null record or at the end has stopped at the first null record |
| Detailed.DetailedConjugationAdapter.GetChart | src/main/java/com/alphasystem/app/morphologicalengine/docx/DetailedConjugationAdapter.java:35-47 | succeeds exactly when DetailedChart does, the table then holding the chart rows after the earlier rows; otherwise NullPointerException, the table then holding the earlier rows followed by the rows of the records before the first null record |
| Detailed.DetailedConjugationAdapter.BuildDocument | src/main/java/com/alphasystem/app/morphologicalengine/docx/ChartAdapter.java:11-14 | appends the detailed table to the document, or raises and appends nothing |
| Abbreviated.TitleText | src/main/java/com/alphasystem/app/morphologicalengine/docx/AbbreviatedConjugationAdapter.java:72-75 | the header title when header and title are non-null, otherwise getTitleWord of the active line |
| Abbreviated.TranslationText | src/main/java/com/alphasystem/app/morphologicalengine/docx/AbbreviatedConjugationAdapter.java:143 | a null translation is written as the empty string |
| Abbreviated.HeaderLabelPara | src/main/java/com/alphasystem/app/morphologicalengine/docx/AbbreviatedConjugationAdapter.java:155-167 | a label paragraph exists exactly when the label is non-null; otherwise NullPointerException |
| Abbreviated.HeaderRow | src/main/java/com/alphasystem/app/morphologicalengine/docx/AbbreviatedConjugationAdapter.java:89-105 | the header row is built exactly when the header and all three type labels are non-null; otherwise NullPointerException |
| Abbreviated.HeaderRowLayout | src/main/java/com/alphasystem/app/morphologicalengine/docx/AbbreviatedConjugationAdapter.java:102-104 | two cells at columns 0 and 2, span 2 each: an empty paragraph and the translation, then the three labels in order; the row tiles 4 columns |
| Abbreviated.RootLettersText | src/main/java/com/alphasystem/app/morphologicalengine/docx/AbbreviatedConjugationAdapter.java:123-140 | "" for a null header or null root letters; NullPointerException exactly when the first, second or third radical is null; otherwise those radicals, and the fourth when non-null, space-joined in order |
| Abbreviated.ActiveLineRows | src/main/java/com/alphasystem/app/morphologicalengine/docx/AbbreviatedConjugationAdapter.java:169-180 | no row for a null line; one row when its verbal nouns join; otherwise NullPointerException |
| Abbreviated.PassiveLineRows | src/main/java/com/alphasystem/app/morphologicalengine/docx/AbbreviatedConjugationAdapter.java:182-193 | no row for a null line; one row when its verbal nouns join; otherwise NullPointerException |
| Abbreviated.CommandLineRows | src/main/java/com/alphasystem/app/morphologicalengine/docx/AbbreviatedConjugationAdapter.java:195-203 | one row exactly when the line is non-null |
| Abbreviated.AdverbLineRows | src/main/java/com/alphasystem/app/morphologicalengine/docx/AbbreviatedConjugationAdapter.java:205-213 | no row for a null line; one row when the adverbs join; otherwise NullPointerException |
| Abbreviated.FourCellRowWellFormed | src/main/java/com/alphasystem/app/morphologicalengine/docx/AbbreviatedConjugationAdapter.java:172-178 | active and passive rows are four span-1 cells that tile the 4 columns, without merges |
| Abbreviated.CommandLineRowsWellFormed | src/main/java/com/alphasystem/app/morphologicalengine/docx/AbbreviatedConjugationAdapter.java:198-201 | the command row tiles the 4 columns with two span-2 cells, without merges |
| Abbreviated.RecordRowsOk | src/main/java/com/alphasystem/app/morphologicalengine/docx/AbbreviatedConjugationAdapter.java:46-58 | a record builds exactly when its header is writable (or omitted) and its verbal nouns and adverbs join |
| Abbreviated.RecordRowsCount | src/main/java/com/alphasystem/app/morphologicalengine/docx/AbbreviatedConjugationAdapter.java:46-58 | a record adds title (unless omitted) + header (unless omitted) + one per non-null line + one separator rows |
| Abbreviated.RecordRowsSplit | src/main/java/com/alphasystem/app/morphologicalengine/docx/AbbreviatedConjugationAdapter.java:46-58 | a record's rows are title, header, active, passive, command, adverb and separator rows, in that order |
| Abbreviated.RecordRowsEndWithSeparator | src/main/java/com/alphasystem/app/morphologicalengine/docx/AbbreviatedConjugationAdapter.java:57 | every record ends with the 4-column separator row |
| Abbreviated.RecordRowsTitleFirst | src/main/java/com/alphasystem/app/morphologicalengine/docx/AbbreviatedConjugationAdapter.java:47-49 | a record opens with its title row exactly when the title is not omitted |
| Abbreviated.AdverbOnlyRecord | src/main/java/com/alphasystem/app/morphologicalengine/docx/AbbreviatedConjugationAdapter.java:205-213 | with title and header omitted, a record with only an adverb line adds the adverb row and the separator |
| Abbreviated.RecordRowsWellFormed | src/main/java/com/alphasystem/app/morphologicalengine/docx/AbbreviatedConjugationAdapter.java:46-58 | every row of a record tiles the 4 columns without merges |
| Abbreviated.AbbreviatedChartWellFormed | src/main/java/com/alphasystem/app/morphologicalengine/docx/AbbreviatedConjugationAdapter.java:45-61 | every row of a chart tiles the 4 columns, without merges |
| Abbreviated.AbbreviatedChartSpans | src/main/java/com/alphasystem/app/morphologicalengine/docx/AbbreviatedConjugationAdapter.java:45-61 | every row's spans sum to 4 |
| Abbreviated.NullRecordFails | src/main/java/com/alphasystem/app/morphologicalengine/docx/AbbreviatedConjugationAdapter.java:46-53 | a null record anywhere in the array raises NullPointerException |
| Abbreviated.AbbreviatedChartFailsOn | src/main/java/com/alphasystem/app/morphologicalengine/docx/AbbreviatedConjugationAdapter.java:45-61 | once the records up to some point raise, the whole chart raises |
| Abbreviated.AbbreviatedChartOk | src/main/java/com/alphasystem/app/morphologicalengine/docx/AbbreviatedConjugationAdapter.java:45-61 | the chart is made exactly when no record is null and every record's rows are made |
| Abbreviated.AllRecordsBuild | src/main/java/com/alphasystem/app/morphologicalengine/docx/AbbreviatedConjugationAdapter.java:45-61 | records that are all present and all build make the chart |
| Abbreviated.AbbreviatedChartSnoc | src/main/java/com/alphasystem/app/morphologicalengine/docx/AbbreviatedConjugationAdapter.java:46-58 | records are laid out in array order, each after the rows of those before it |
| Abbreviated.AbbreviatedDocumentParts | src/main/java/com/alphasystem/app/morphologicalengine/docx/ChartAdapter.java:11-14 | the adapter adds one abbreviated table holding its rows, or nothing and NullPointerException |
| Abbreviated.AbbreviatedConjugationAdapter.constructor | src/main/java/com/alphasystem/app/morphologicalengine/docx/AbbreviatedConjugationAdapter.java:38-42 | a null configuration becomes the default, a null or empty array an empty one; the table starts with four widths and no rows |
| Abbreviated.AbbreviatedConjugationAdapter.AddTitleRow | src/main/java/com/alphasystem/app/morphologicalengine/docx/AbbreviatedConjugationAdapter.java:63-65 | appends exactly the title row |
| Abbreviated.AbbreviatedConjugationAdapter.AddHeaderRow | src/main/java/com/alphasystem/app/morphologicalengine/docx/AbbreviatedConjugationAdapter.java:89-105 | appends the header row, or raises NullPointerException and appends nothing |
| Abbreviated.AbbreviatedConjugationAdapter.AddActiveLineRow | src/main/java/com/alphasystem/app/morphologicalengine/docx/AbbreviatedConjugationAdapter.java:169-180 | appends the active rows; on an exception only the participle cell has been placed in the open row |
| Abbreviated.AbbreviatedConjugationAdapter.AddPassiveLine | src/main/java/com/alphasystem/app/morphologicalengine/docx/AbbreviatedConjugationAdapter.java:182-193 | appends the passive rows; on an exception only the participle cell has been placed in the open row |
| Abbreviated.AbbreviatedConjugationAdapter.AddCommandLine | src/main/java/com/alphasystem/app/morphologicalengine/docx/AbbreviatedConjugationAdapter.java:195-203 | appends exactly the command rows |
| Abbreviated.AbbreviatedConjugationAdapter.AddAdverbLine | src/main/java/com/alphasystem/app/morphologicalengine/docx/AbbreviatedConjugationAdapter.java:205-213 | appends the adverb rows; on an exception an empty row is left open |
| Abbreviated.AbbreviatedConjugationAdapter.AddRecord | src/main/java/com/alphasystem/app/morphologicalengine/docx/AbbreviatedConjugationAdapter.java:46-58 | appends exactly the record's rows or raises what RecordRows raises; rows are only appended |
| Abbreviated.AbbreviatedConjugationAdapter.GetChart | src/main/java/com/alphasystem/app/morphologicalengine/docx/AbbreviatedConjugationAdapter.java:45-61 | succeeds exactly when AbbreviatedChart does, the table then holding the chart rows after the earlier rows; otherwise NullPointerException |
| Abbreviated.AbbreviatedConjugationAdapter.BuildDocument | src/main/java/com/alphasystem/app/morphologicalengine/docx/ChartAdapter.java:11-14 | appends the abbreviated table to the document, or raises and appends nothing |
| ChartEngine.SuppliedCharts | src/main/java/com/alphasystem/app/morphologicalengine/docx/MorphologicalChartEngine.java:88-97 | one chart per data item, in data order |
| ChartEngine.AbbreviatedStep | src/main/java/com/alphasystem/app/morphologicalengine/docx/MorphologicalChartEngine.java:73-78 | nothing for a null or omitted abbreviated conjugation; otherwise at most one abbreviated table |
| ChartEngine.DetailedStep | src/main/java/com/alphasystem/app/morphologicalengine/docx/MorphologicalChartEngine.java:80-85 | nothing for a null or omitted detailed conjugation; otherwise at most one detailed table |
| ChartEngine.ChartStepParts | src/main/java/com/alphasystem/app/morphologicalengine/docx/MorphologicalChartEngine.java:72-86 | a chart adds at most two parts, never a table of contents, the abbreviated table before the detailed one |
| ChartEngine.ChartStepAbbreviated | src/main/java/com/alphasystem/app/morphologicalengine/docx/MorphologicalChartEngine.java:73-78 | the abbreviated table is added exactly when the conjugation is non-null, not omitted and builds |
| ChartEngine.ChartStepPair | src/main/java/com/alphasystem/app/morphologicalengine/docx/MorphologicalChartEngine.java:72-86 | a chart that adds two parts without raising adds its abbreviated table, then its detailed table |
| ChartEngine.ChartStepDetailed | src/main/java/com/alphasystem/app/morphologicalengine/docx/MorphologicalChartEngine.java:80-85 | the detailed table is added exactly when the abbreviated part raised nothing and the detailed conjugation is non-null, not omitted and builds |
| ChartEngine.EngineTableOfContents | src/main/java/com/alphasystem/app/morphologicalengine/docx/MorphologicalChartEngine.java:55-67 | the document holds a table of contents exactly when template and configuration are non-null and neither the abbreviated charts nor the table of contents is omitted; it is then first |
| ChartEngine.EngineDocumentOrder | src/main/java/com/alphasystem/app/morphologicalengine/docx/MorphologicalChartEngine.java:68-69 | when every chart adds both tables, the document is the table of contents (when due), then abbreviated and detailed table chart by chart in data order |
| ChartEngine.MorphologicalChartEngine.constructor | src/main/java/com/alphasystem/app/morphologicalengine/docx/MorphologicalChartEngine.java:41-44 | keeps the path and the template as given |
| ChartEngine.MorphologicalChartEngine.Call | src/main/java/com/alphasystem/app/morphologicalengine/docx/MorphologicalChartEngine.java:46-53 | IllegalArgumentException("Path cannot be null.") for a null path; otherwise true, unless building the document raised |
| ChartEngine.MorphologicalChartEngine.BuildDocument | src/main/java/com/alphasystem/app/morphologicalengine/docx/MorphologicalChartEngine.java:55-70 | appends exactly the parts of EngineDocument and raises what it raises (nothing for a null template, NullPointerException for a null configuration) |
| ChartEngine.MorphologicalChartEngine.AddCharts | src/main/java/com/alphasystem/app/morphologicalengine/docx/MorphologicalChartEngine.java:68-69 | runs addToDocument over the charts in order, stopping at the first exception |
| ChartEngine.MorphologicalChartEngine.AddToDocument | src/main/java/com/alphasystem/app/morphologicalengine/docx/MorphologicalChartEngine.java:72-86 | appends exactly the chart's parts; a null chart raises NullPointerException |
| ChartEngine.MorphologicalChartEngine.CreateMorphologicalCharts | src/main/java/com/alphasystem/app/morphologicalengine/docx/MorphologicalChartEngine.java:88-97 | one supplied chart per data item, in data order; NullPointerException for a null template |
| ChartAdapter.EmptyChartsAddNothing | src/main/java/com/alphasystem/app/morphologicalengine/docx/MorphologicalChartAdapter.java:67-69 | a null or empty chart array adds nothing and raises nothing, as written and corrected |
| ChartAdapter.AdapterTableOfContents | src/main/java/com/alphasystem/app/morphologicalengine/docx/MorphologicalChartAdapter.java:67-76 | as written and corrected, a table of contents is added exactly when there is a chart and neither the abbreviated charts nor the table of contents is omitted; it is then first |
| ChartAdapter.ChartStepParts | src/main/java/com/alphasystem/app/morphologicalengine/docx/MorphologicalChartAdapter.java:82-91 | with the corrected step (and so, by ChartStepCorrects, with the written one), a chart adds at most two parts, never a table of contents, the abbreviated table before the detailed one |
| ChartAdapter.ChartStepAbbreviated | src/main/java/com/alphasystem/app/morphologicalengine/docx/MorphologicalChartAdapter.java:83-88 | as written, the abbreviated table is added exactly when the abbreviated conjugation is non-null, not omitted and builds; the written step adds the same parts as the corrected one |
| ChartAdapter.ChartStepDetailed | src/main/java/com/alphasystem/app/morphologicalengine/docx/MorphologicalChartAdapter.java:89-90 | with the corrected step (and, by ChartStepCorrects, with the written one, which adds the same parts), the detailed table is added exactly when the abbreviated part raised nothing and the detailed conjugation is non-null and builds, whatever the omit flag says |
| ChartAdapter.AgreesWithEngine | src/main/java/com/alphasystem/app/morphologicalengine/docx/MorphologicalChartAdapter.java:82-91 | when detailed conjugations are not omitted, the corrected step lays each chart out as the chart engine does |
| ChartAdapter.AsWrittenNullDetailedRaises | src/main/java/com/alphasystem/app/morphologicalengine/docx/MorphologicalChartAdapter.java:89-90 | as written, a null detailed conjugation raises NullPointerException; the corrected step raises nothing |
| ChartAdapter.AsWrittenEmptyChartRaises | src/main/java/com/alphasystem/app/morphologicalengine/docx/MorphologicalChartAdapter.java:77-90 | one chart with neither conjugation: as written the table of contents then NullPointerException; corrected the table of contents only |
| ChartAdapter.ChartStepCorrects | src/main/java/com/alphasystem/app/morphologicalengine/docx/MorphologicalChartAdapter.java:82-91 | the corrected step adds the same parts as the written one and differs only where the written one raises on a null detailed conjugation |
| ChartAdapter.AsWrittenDocumentCorrects | src/main/java/com/alphasystem/app/morphologicalengine/docx/MorphologicalChartAdapter.java:65-91 | the document as written is a prefix of the corrected one, and is the corrected one when it raises nothing or when no chart has a null detailed conjugation |
| ChartAdapter.MorphologicalChartAdapter.constructor | src/main/java/com/alphasystem/app/morphologicalengine/docx/MorphologicalChartAdapter.java:50-54 | keeps path and charts; a null configuration becomes the default one |
| ChartAdapter.MorphologicalChartAdapter.Call | src/main/java/com/alphasystem/app/morphologicalengine/docx/MorphologicalChartAdapter.java:56-63 | IllegalArgumentException("Path cannot be null.") for a null path; otherwise true, unless building AsWrittenDocument raised, in which case that exception |
| ChartAdapter.MorphologicalChartAdapter.BuildDocument | src/main/java/com/alphasystem/app/morphologicalengine/docx/MorphologicalChartAdapter.java:65-80 | appends exactly the parts of AsWrittenDocument, chart by chart in array order, and raises what it raises |
| ChartAdapter.MorphologicalChartAdapter.AddCharts | src/main/java/com/alphasystem/app/morphologicalengine/docx/MorphologicalChartAdapter.java:77-79 | runs the written buildMorphologicalChart over the charts in array order, stopping at the first exception |
| ChartAdapter.MorphologicalChartAdapter.BuildMorphologicalChart | src/main/java/com/alphasystem/app/morphologicalengine/docx/MorphologicalChartAdapter.java:82-91 | appends exactly the written chart step's parts: the abbreviated table unless null or omitted, then the detailed table; a null chart or a null detailed conjugation raises NullPointerException |

## Left out

- Document creation and saving (`WmlHelper.createDocument`, `save`): package setup, styles, fonts, page orientation and file I/O are not modelled. `call` builds into a fresh main document part. The `createDocument(path)` it calls is not part of this model.
- Paragraph and run identifiers (`nextId`), fonts, sizes, bidi, justification and bookmarks: these are formatting with no effect on layout, so paragraphs keep only their style and runs.
- The table-of-contents field: it is an opaque `TableOfContents` part. Its `Docx4JException` is caught and printed in the source, so it has no effect on the model.
- `MorphologicalChartSupplier` and the conjugation builder behind it: the supplier is a function parameter of the engine.
- `getRootWordsPara`: it is never called. `getRootLetters` is modelled as `Abbreviated.RootLettersText`.
- `Abbreviated.TitleText`: it does not model the `""` fallback for a null title word, because `getTitleWord` never returns null.
- `Abbreviated.AbbreviatedConjugationAdapter.AddRecord`: on an exception, the state of the partly built table is only partly stated (rows are appended to, never changed). The source throws and never adds that table to a document.
- `Abbreviated.AbbreviatedConjugationAdapter.GetChart`: on an exception, the table state is only partly stated, for the same reason.
- Callable: there is no concurrency; `call` is a plain method.
- `ChartEngine.MorphologicalChartEngine.CreateMorphologicalCharts`: the template's data list and its items are plain values. A null list would raise NullPointerException at `data.size()`; a null item goes to the supplier, which is not part of this model.
- `RootWord.labelText` and `ConjugationData.template` are plain values: `toLabel()` and the template belong to libraries outside this model.
- The shorter constructors delegate to the full one, so each is modelled by its full constructor: the engine's one-argument form passes a null path; the adapter's one-argument form passes a null path and a null configuration, and its two-argument form a null path and the caller's configuration.

## Findings

| source | as written | input that shows it | evidently intended | confidence | as-written member | corrected member |
|---|---|---|---|---|---|---|
| src/main/java/com/alphasystem/app/morphologicalengine/docx/MorphologicalChartAdapter.java:89-90 | `buildMorphologicalChart` always makes a detailed adapter from `mc.getDetailedConjugation()`. The varargs array it passes is `[null]` when that is null, and `getChart` then dereferences the null element | a chart with a null detailed conjugation, e.g. `new MorphologicalChart(null, null)` under the default configuration: NullPointerException after the table of contents | skip the detailed table when its conjugation is null, as `MorphologicalChartEngine.addToDocument` does at src/main/java/com/alphasystem/app/morphologicalengine/docx/MorphologicalChartEngine.java:80-82 | not executed | ChartAdapter.AsWrittenNullDetailedRaises | ChartAdapter.ChartStepCorrects |
