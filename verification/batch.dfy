/**
 One run of the generator over a batch of uploaded reports: each report gets
 the next document ID of the month, a row in the CSV summary and a filled-in
 Word template; the advanced counter is written back at the end.
 */
module Batch {
  import opened Wrappers
  import opened Text
  import opened Numerals
  import opened Extraction
  import opened Counter

  /** A dictionary of string fields, as the summary rows and the template context are. */
  type Record = map<Key, string>

  /** `{**fields, "DOC_ID": doc_id}`: one row of the CSV summary. */
  function SummaryRow(f: ExtractedFields, docId: string): Record {
    AsRecord(f)[DocIdKey := docId]
  }

  /** A summary row has the six fields and DOC_ID, and nothing else. */
  lemma SummaryRowFields(f: ExtractedFields, docId: string)
    ensures SummaryRow(f, docId).Keys == FieldNames + {DocIdKey}
    ensures SummaryRow(f, docId)[DocIdKey] == docId
    ensures forall k :: k in FieldNames ==> SummaryRow(f, docId)[k] == AsRecord(f)[k]
  {
    AsRecordFields(f);
  }

  /**
   What `fill_word_template` renders: the fields, with DOC_ID and
   GENERATED_DATE written into the same dictionary.
   */
  function TemplateContext(f: ExtractedFields, docId: string, generatedDate: string): Record {
    AsRecord(f)[DocIdKey := docId][GeneratedDateKey := generatedDate]
  }

  /** The template sees the six fields, DOC_ID and GENERATED_DATE. */
  lemma TemplateContextFields(f: ExtractedFields, docId: string, generatedDate: string)
    ensures TemplateContext(f, docId, generatedDate).Keys == FieldNames + {DocIdKey, GeneratedDateKey}
    ensures TemplateContext(f, docId, generatedDate)[DocIdKey] == docId
    ensures TemplateContext(f, docId, generatedDate)[GeneratedDateKey] == generatedDate
    ensures forall k :: k in FieldNames ==> TemplateContext(f, docId, generatedDate)[k] == AsRecord(f)[k]
  {
    AsRecordFields(f);
  }

  /**
   The summary row is copied before the template is filled, so it is the
   template context without GENERATED_DATE: the CSV carries no generation date.
   */
  lemma SummaryRowHasNoGeneratedDate(f: ExtractedFields, docId: string, generatedDate: string)
    ensures GeneratedDateKey !in SummaryRow(f, docId)
    ensures SummaryRow(f, docId) == TemplateContext(f, docId, generatedDate) - {GeneratedDateKey}
  {
    var row, ctx := SummaryRow(f, docId), TemplateContext(f, docId, generatedDate);
    SummaryRowFields(f, docId);
    TemplateContextFields(f, docId, generatedDate);
    assert GeneratedDateKey !in FieldNames;
    assert row.Keys == (ctx - {GeneratedDateKey}).Keys;
  }

  /** A generated Word file: its name and the context its template is rendered with. */
  datatype WordFile = WordFile(name: string, context: Record)

  /** `f` applied to every element of `s`, in order. */
  function Map<A, B>(f: A -> B, s: seq<A>): (r: seq<B>)
    ensures |r| == |s|
    decreases |s|
  {
    if s == [] then [] else Map(f, s[..|s| - 1]) + [f(s[|s| - 1])]
  }

  lemma {:induction false} MapAt<A, B>(f: A -> B, s: seq<A>, i: nat)
    requires i < |s|
    ensures Map(f, s)[i] == f(s[i])
    decreases |s|
  {
    var n := |s| - 1;
    if i < n {
      MapAt(f, s[..n], i);
      assert s[..n][i] == s[i];
    }
  }

  /** The IDs of a batch of `n` reports whose first gets sequence number `start`, in the format `id`. */
  function BatchIds(id: int -> string, start: int, n: nat): (ids: seq<string>)
    ensures |ids| == n
  {
    if n == 0 then [] else BatchIds(id, start, n - 1) + [id(start + n - 1)]
  }

  /** Report `i` of the batch gets sequence number `start + i`. */
  lemma {:induction false} BatchIdsAt(id: int -> string, start: int, n: nat, i: nat)
    requires i < n
    ensures BatchIds(id, start, n)[i] == id(start + i)
  {
    if i < n - 1 {
      BatchIdsAt(id, start, n - 1, i);
    }
  }

  /** With a format that never gives two sequence numbers the same ID, no two reports of a batch share one. */
  lemma BatchIdsDistinct(id: int -> string, start: int, n: nat, i: nat, j: nat)
    requires forall a, b :: a != b ==> id(a) != id(b)
    requires i < j < n
    ensures BatchIds(id, start, n)[i] != BatchIds(id, start, n)[j]
  {
    BatchIdsAt(id, start, n, i);
    BatchIdsAt(id, start, n, j);
  }

  /** With a format whose IDs grow with the sequence number from `start` on, the IDs of a batch grow in upload order. */
  lemma BatchIdsIncreasing(id: int -> string, start: int, n: nat, i: nat, j: nat)
    requires forall a, b :: start <= a < b ==> DigitsLess(id(a), id(b))
    requires i < j < n
    ensures DigitsLess(BatchIds(id, start, n)[i], BatchIds(id, start, n)[j])
  {
    BatchIdsAt(id, start, n, i);
    BatchIdsAt(id, start, n, j);
  }

  /** No two reports of a month's batch share an ID. */
  lemma MonthBatchIdsDistinct(month: nat, start: int, n: nat, i: nat, j: nat)
    requires i < j < n
    ensures BatchIds(MonthIds(month), start, n)[i] != BatchIds(MonthIds(month), start, n)[j]
  {
    var id := MonthIds(month);
    forall a, b | a != b ensures id(a) != id(b) {
      DocIdInjective(month, a, b);
    }
    BatchIdsDistinct(id, start, n, i, j);
  }

  /** From a non-negative counter the IDs of a month's batch increase in upload order, read as numbers. */
  lemma MonthBatchIdsIncreasing(month: nat, start: nat, n: nat, i: nat, j: nat)
    requires i < j < n
    ensures DigitsLess(BatchIds(MonthIds(month), start, n)[i], BatchIds(MonthIds(month), start, n)[j])
  {
    var id := MonthIds(month);
    forall a, b | start <= a < b ensures DigitsLess(id(a), id(b)) {
      DocIdIncreasing(month, a, b);
    }
    BatchIdsIncreasing(id, start, n, i, j);
  }

  /** The summary rows: report `i`'s fields with ID `ids[i]`. */
  function SummaryRows(reports: seq<ExtractedFields>, ids: seq<string>): (rows: seq<Record>)
    requires |ids| == |reports|
    ensures |rows| == |reports|
    decreases |reports|
  {
    if reports == [] then []
    else
      var n := |reports| - 1;
      SummaryRows(reports[..n], ids[..n]) + [SummaryRow(reports[n], ids[n])]
  }

  /** The Word files, in the same order: file `i` is named after `ids[i]`. */
  function WordFiles(reports: seq<ExtractedFields>, ids: seq<string>, dates: seq<string>): (files: seq<WordFile>)
    requires |ids| == |reports| && |dates| == |reports|
    ensures |files| == |reports|
    decreases |reports|
  {
    if reports == [] then []
    else
      var n := |reports| - 1;
      WordFiles(reports[..n], ids[..n], dates[..n])
        + [WordFile(FileName(ids[n]), TemplateContext(reports[n], ids[n], dates[n]))]
  }

  /** Row `i` of the summary holds report `i`'s fields and DOC_ID `ids[i]`. */
  lemma {:induction false} SummaryRowsAt(reports: seq<ExtractedFields>, ids: seq<string>, i: nat)
    requires |ids| == |reports| && i < |reports|
    ensures SummaryRows(reports, ids)[i] == SummaryRow(reports[i], ids[i])
    decreases |reports|
  {
    var n := |reports| - 1;
    if i < n {
      SummaryRowsAt(reports[..n], ids[..n], i);
    }
  }

  /** Word file `i` is named after `ids[i]` and rendered from report `i`'s fields and the date read for it. */
  lemma {:induction false} WordFilesAt(reports: seq<ExtractedFields>, ids: seq<string>, dates: seq<string>, i: nat)
    requires |ids| == |reports| && |dates| == |reports| && i < |reports|
    ensures WordFiles(reports, ids, dates)[i] ==
              WordFile(FileName(ids[i]), TemplateContext(reports[i], ids[i], dates[i]))
    decreases |reports|
  {
    var n := |reports| - 1;
    if i < n {
      WordFilesAt(reports[..n], ids[..n], dates[..n], i);
    }
  }

  /** Extending the reports and IDs by one appends that report's row. */
  lemma SummaryRowsSnoc(reports: seq<ExtractedFields>, ids: seq<string>, n: nat)
    requires |ids| == |reports| && n < |reports|
    ensures SummaryRows(reports[..n + 1], ids[..n + 1])
         == SummaryRows(reports[..n], ids[..n]) + [SummaryRow(reports[n], ids[n])]
  {
    assert reports[..n + 1][..n] == reports[..n];
    assert ids[..n + 1][..n] == ids[..n];
  }

  /** Extending the reports and IDs by one appends that report's Word file. */
  lemma WordFilesSnoc(reports: seq<ExtractedFields>, ids: seq<string>, dates: seq<string>, n: nat)
    requires |ids| == |reports| && |dates| == |reports| && n < |reports|
    ensures WordFiles(reports[..n + 1], ids[..n + 1], dates[..n + 1])
         == WordFiles(reports[..n], ids[..n], dates[..n])
              + [WordFile(FileName(ids[n]), TemplateContext(reports[n], ids[n], dates[n]))]
  {
    assert reports[..n + 1][..n] == reports[..n];
    assert ids[..n + 1][..n] == ids[..n];
    assert dates[..n + 1][..n] == dates[..n];
  }

  /**
   The loop over the uploaded reports, with the field extractor passed in as
   `extract` and the ID format as `id` (the batch calls it with `Extract` and
   the month's `MonthIds`): in upload order, extract the fields of report `n`,
   give it ID `id(start + n)`, and append its summary row and its Word file,
   rendered with `dates[n]`, the date the clock gave when that file was filled in.
   */
  method ProcessReports(extract: string -> ExtractedFields, id: int -> string, texts: seq<string>, start: int, dates: seq<string>)
    returns (summary: seq<Record>, wordFiles: seq<WordFile>, next: int)
    requires |dates| == |texts|
    ensures summary == SummaryRows(Map(extract, texts), BatchIds(id, start, |texts|))
    ensures wordFiles == WordFiles(Map(extract, texts), BatchIds(id, start, |texts|), dates)
    ensures next == start + |texts|
  {
    ghost var reports, ids := Map(extract, texts), BatchIds(id, start, |texts|);
    var current := start;
    summary, wordFiles := [], [];
    for n := 0 to |texts|
      invariant current == start + n
      invariant summary == SummaryRows(reports[..n], ids[..n])
      invariant wordFiles == WordFiles(reports[..n], ids[..n], dates[..n])
    {
      var fields := extract(texts[n]);
      var docId := id(current);
      MapAt(extract, texts, n);
      BatchIdsAt(id, start, |texts|, n);
      SummaryRowsSnoc(reports, ids, n);
      WordFilesSnoc(reports, ids, dates, n);
      summary := summary + [SummaryRow(fields, docId)];
      wordFiles := wordFiles + [WordFile(FileName(docId), TemplateContext(fields, docId, dates[n]))];
      current := current + 1;
    }
    assert reports[..|texts|] == reports && ids[..|texts|] == ids && dates[..|texts|] == dates;
    next := current;
  }

  /**
   The batch: it runs only when there is at least one report and a template.
   Starting from the loaded counter of the month, the reports get successive
   IDs in upload order, each its summary row and Word file; the counter file
   is then saved with the month advanced by the number of reports and every
   other month as it was. Without reports or template nothing is loaded or
   saved. `dates[n]` is what the clock reads when Word file `n` is filled in.
   */
  method RunBatch(stored: Stored, month: nat, texts: seq<string>, templateUploaded: bool, dates: seq<string>)
    returns (summary: seq<Record>, wordFiles: seq<WordFile>, saved: Stored)
    requires |dates| == |texts|
    ensures !(texts != [] && templateUploaded) ==> summary == [] && wordFiles == [] && saved == stored
    ensures texts != [] && templateUploaded ==>
              && summary == SummaryRows(Map(Extract, texts), BatchIds(MonthIds(month), StartNumber(stored, month), |texts|))
              && wordFiles == WordFiles(Map(Extract, texts), BatchIds(MonthIds(month), StartNumber(stored, month), |texts|), dates)
              && saved == AfterBatch(stored, month, |texts|)
  {
    if !(texts != [] && templateUploaded) {
      return [], [], stored;
    }
    var counter := LoadCounter(stored, month);
    var current := counter[MonthKey(month)];
    summary, wordFiles, current := ProcessReports(Extract, MonthIds(month), texts, current, dates);
    counter := counter[MonthKey(month) := current];
    saved := Some(counter);
  }
}
