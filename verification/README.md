# Job Completion Report generator — a Dafny model of its core

The generator (`app.py`) reads uploaded work-order reports, pulls six fields out
of each report's text with four fixed regular expressions, gives each report
the next document ID of the month, and writes one row per report into a CSV
summary and one filled-in Word file per report. The next sequence number of
each month is kept in `counter.json`. A button resets the file to number 1 for
the current month.

The model has six modules:

- `Wrappers`: `Option`.
- `Text`: ASCII digits, Python's `str.isspace` characters, and `str.strip()`.
- `Numerals`:
  - `str(k)` for integers;
  - `str.zfill`;
  - the number a digit string denotes (what `int(...)` reads back).
- `Extraction`: `extract_data_from_pdf` on the joined page text. The four
  patterns are written out as "matches at position i" predicates. `re.search`
  is the leftmost-match scanner `Search`. `re.findall` for the date pattern is
  the scanner `DatePositions` / `DateTokensFrom`: it resumes each search at the
  end of the previous match.
- `Counter`:
  - `load_counter`;
  - the reset payload;
  - the document ID `f"{MONTH}{str(current).zfill(3)}"`;
  - the Word file name;
  - the counter file a batch leaves behind.

  `counter.json` is an `Option<map<string, int>>`, where `None` means the file
  does not exist. The current month is a parameter.
- `Batch`: the loop over the uploaded reports, as the method `ProcessReports`,
  and the whole run with its guard, as the method `RunBatch`.
  - `ProcessReports` takes the field extractor and the ID format as function
    parameters. `RunBatch` passes it `Extraction.Extract` and
    `Counter.MonthIds(month)`, the month's `DocId`.
  - The loop's invariants tie the rows and files built so far to the
    specification functions `SummaryRows`, `WordFiles` and `BatchIds`.

Three things `app.py` does that a reader may not expect:

- FACILITY_LOCATION comes from its own leftmost match of `FM\d{4} (.+)`. That
  can be a different `FM` code from the one FACILITY_CODE reports.
  `LocationNeedsCode` states how the two relate.
- WO_NUMBER comes from the leftmost "WO Number: " label that a digit follows,
  not from the first label.
- The CSV rows carry no GENERATED_DATE. The row is copied from the fields
  before `fill_word_template` adds DOC_ID and GENERATED_DATE to the same
  dictionary (`SummaryRowHasNoGeneratedDate`).

The code has no mode for starting the numbering at a chosen value. Numbering
starts from the stored counter, or from 1 after a reset or when the month is
missing.

Within a month, the ID determines the sequence number, so IDs repeat only
after a reset or a hand-edited counter file. Across months they can collide:
document 1001 of January and document 1 of November are both "11001"
(`Counter.DocIdsCollideAcrossMonths`).

## Model

| member | source | states |
|---|---|---|
| Text.StripShape | app.py:43 | `strip()` returns a contiguous slice of its input, and everything before and after that slice is whitespace |
| Text.StripEnds | app.py:43 | the stripped location neither starts nor ends with a whitespace character |
| Text.StripChars | app.py:43 | `strip()` only removes characters: every character of the result occurs in the input |
| Text.StripIdempotent | app.py:43 | stripping an already stripped string leaves it unchanged |
| Numerals.DecimalStringDigits | app.py:79 | `str(n)` is a digit string that reads back as `n`, has no leading zero unless `n` is 0, and has exactly as many digits as `n` needs |
| Numerals.ZFill3Natural | app.py:79 | `str(k).zfill(3)` for `k >= 0` is at least three digits that read back as `k`; it is padded only when `k < 100` and always ends with `str(k)` |
| Numerals.ZFill3RoundTrip | app.py:79 | `int(str(k).zfill(3)) == k` for every integer counter value |
| Extraction.Search | app.py:41-43 | `re.search` finds nothing exactly when the pattern occurs nowhere; otherwise it finds the leftmost match |
| Extraction.RestOfLine | app.py:43 | the `.+` capture is the text from the given position up to the next line feed or the end of the text, and it holds no line feed |
| Extraction.DatePositionsAreSuccessiveSearches | app.py:44-46 | each date found by `findall` is the leftmost date at or after the end of the previous one, and no date starts after the end of the last |
| Extraction.DateTokensAt | app.py:44-46 | the `k`-th date token is the ten characters at the `k`-th position found |
| Extraction.DateTokensShaped | app.py:44-46 | every date token has the form two digits, dot, two digits, dot, four digits |
| Extraction.DateTokensEmpty | app.py:44-46 | `findall` returns no date exactly when no date occurs in the text |
| Extraction.WoNumberOf | app.py:41 | WO_NUMBER is "" exactly when no "WO Number: " label followed by a digit occurs |
| Extraction.WoNumberDigits | app.py:41 | WO_NUMBER holds digits only |
| Extraction.WoNumberAt | app.py:41 | WO_NUMBER is the whole, non-empty run of digits right after the leftmost such label |
| Extraction.FacilityCodeOf | app.py:42 | FACILITY_CODE is "" exactly when `FM\d{4}` occurs nowhere; otherwise it is "FM" and four digits |
| Extraction.FacilityCodeShape | app.py:42 | a non-empty FACILITY_CODE has six characters: "FM" followed by four digits |
| Extraction.FacilityCodeAtLeftmost | app.py:42 | FACILITY_CODE is the six characters at the leftmost occurrence |
| Extraction.FacilityLocationShape | app.py:43 | FACILITY_LOCATION is "" when no `FM\d{4} .+` line occurs; it never holds a line feed and has no surrounding whitespace |
| Extraction.FacilityLocationAtLeftmost | app.py:43 | FACILITY_LOCATION is the stripped rest of the line after the leftmost `FM\d{4} ` that has text after it |
| Extraction.LocationNeedsCode | app.py:42-43 | no FACILITY_CODE implies no FACILITY_LOCATION; the code's match is never to the right of the location's |
| Extraction.ExtractPresence | app.py:40-47 | every field is always present: each is "" exactly when its pattern does not occur (the location only when its line is missing), and an estimated completion date implies both other dates |
| Extraction.KeyNameInjective | app.py:40-47 | the eight dictionary keys have pairwise different names |
| Extraction.AsRecordFields | app.py:40-47 | the extractor's dictionary has exactly the six field keys, each holding its field |
| Extraction.DateFields | app.py:44-46 | ISSUED_ON is the first date token and REPORTED_ON the last; EST_COMPLETION_DATE is the second or ""; all three are "" without dates; one date fills both ISSUED_ON and REPORTED_ON; every non-empty date field has the date shape |
| Extraction.DatesInText | app.py:44-46 | the first date position is the leftmost date, and the second starts at or after the end of the first |
| Extraction.NoDateAfterLast | app.py:44-46 | no date starts at or after the end of the last token `findall` returned |
| Extraction.IssuedOnIsLeftmostDate | app.py:45 | ISSUED_ON is the ten characters of the leftmost date in the text |
| Counter.LoadCounter | app.py:20-28 | with no file the result is `{month: 1}`; otherwise it keeps every stored month and value and adds the current month at 1 only when it is missing |
| Counter.StartNumber | app.py:72-73 | the first number of a batch is the stored value of the month, or 1 when the file or the month is missing |
| Counter.ResetPayload | app.py:64-65 | a reset writes exactly one entry: the current month at 1 |
| Counter.ResetThenLoad | app.py:65 | loading after a reset changes nothing, and the next document of the month is number 1 |
| Counter.FileNameParts | app.py:82 | the Word file name is "JCR_", then the ID, then ".docx", so the ID can be read back from the name |
| Counter.DocIdInjective | app.py:79 | within a month, two IDs are equal exactly when their sequence numbers are |
| Counter.Padded | app.py:79 | the padded number of a non-negative counter has at least three digits and reads back as the counter |
| Counter.DocIdIncreasing | app.py:79 | within a month, IDs of non-negative sequence numbers grow with the number, read as decimal numbers |
| Counter.DocIdsCollideAcrossMonths | app.py:79 | document 1001 of January and document 1 of November get the same ID "11001" |
| Counter.AfterBatch | app.py:85-86 | an empty batch leaves the file as it was; otherwise the saved file has the loaded months, the current month advanced by the batch size, and every other month unchanged |
| Counter.AfterBatchStart | app.py:72-86 | the next batch starts numbering where the previous one stopped |
| Counter.TwoBatches | app.py:72-86 | two batches in a row leave the same counter file as one batch with all their reports |
| Counter.JuneExample | app.py:72-86 | with `{"6": 5}` stored, three June reports get "6005", "6006" and "6007", and the file becomes `{"6": 8}` |
| Batch.SummaryRowFields | app.py:80 | a summary row holds the six extracted fields and DOC_ID, and nothing else |
| Batch.TemplateContextFields | app.py:49-53 | the template is rendered with the six fields, DOC_ID and GENERATED_DATE |
| Batch.SummaryRowHasNoGeneratedDate | app.py:80-81 | the CSV row is the template context without GENERATED_DATE, because it is copied before the template fills the dictionary |
| Batch.MapAt | app.py:77-78 | the fields of report `i` are extracted from the `i`-th upload |
| Batch.BatchIdsAt | app.py:77-83 | report `i` of the batch gets the ID of sequence number `start + i` |
| Batch.BatchIdsDistinct | app.py:77-83 | with a format that never repeats an ID, no two reports of a batch share one |
| Batch.BatchIdsIncreasing | app.py:77-83 | with a format whose IDs grow with the number, the batch's IDs grow in upload order |
| Batch.MonthBatchIdsDistinct | app.py:79-83 | the IDs of a month's batch are pairwise distinct |
| Batch.MonthBatchIdsIncreasing | app.py:79-83 | from a non-negative counter, the IDs of a month's batch strictly increase in upload order, read as numbers |
| Batch.SummaryRowsAt | app.py:80 | summary row `i` holds report `i`'s fields and the `i`-th ID |
| Batch.WordFilesAt | app.py:81-82 | Word file `i` is named after the `i`-th ID and rendered from report `i`'s fields and the date read for it |
| Batch.ProcessReports | app.py:77-83 | the loop returns the summary rows and Word files of the uploads, with successive IDs from `start` in upload order, each Word file rendered with its own date, and the counter advanced by the number of reports |
| Batch.RunBatch | app.py:71-86 | without uploads or template nothing is produced and the counter file stays as it was; otherwise the IDs start at the loaded counter and the saved file advances the current month by the number of reports |

## Left out

- The Streamlit page (app.py:12-14, 59-69, 88-96) is not modelled: titles, uploaders, buttons, messages and download buttons. The upload guard of app.py:71 is two inputs of `RunBatch`: the list of report texts and whether a template was uploaded.
- PDF reading (app.py:35-38) is not modelled. `Extract` takes the joined page text. A page without text, for which `extract_text()` returns `None`, makes the source raise an error; the model does not have that case.
- Word rendering (app.py:50, 53-57) is not modelled: docxtpl and the in-memory document. The model keeps the file name and the context the template is rendered with.
- The clock is a parameter. `MONTH` (app.py:18) is the `month` argument. The `strftime` date is read once per Word file (app.py:52, called for each report at app.py:81); the model takes those readings as `dates`, one per report, and Word file `i` is rendered with `dates[i]`.
- RunBatch: assumes that opening each PDF (app.py:35), loading the template (app.py:50) and rendering it (app.py:53) succeed. In the source any such failure raises inside the loop (app.py:77-83), so app.py:85-86 never run: the counter file stays as it was and nothing is offered for download.
- File input and output is not modelled: reading and writing `counter.json` (app.py:21-23, 30-32) and JSON parsing. The file is the `Stored` value going in and out. A file that does not hold a JSON object of integers, an unreadable file, and two runs at once are not modelled.
- The pandas DataFrame and CSV text (app.py:88, 91) are not modelled. Rows are maps from keys to strings, so the column order that dictionary insertion gives is not modelled.
- `\d` matches ASCII digits only. Python's `re` on `str` also matches other Unicode decimal digits.
- Aliasing of the fields dictionary is not modelled. `fill_word_template` adds DOC_ID and GENERATED_DATE to the extractor's dictionary in place (app.py:51-52); the model builds the summary row and the template context as separate values, in the order the source uses them.
- Batch.MonthBatchIdsIncreasing: stated for a non-negative starting counter only. A negative stored counter yields IDs that contain a minus sign, so they are not decimal numbers to compare; `MonthBatchIdsDistinct` covers every counter value.
