/**
 The monthly document counter persisted in `counter.json`, and the document
 IDs it hands out.

 The file holds a JSON object from month numbers (as decimal strings) to the
 next sequence number of that month; a missing file is `None`. The current
 month is a parameter (the clock is not part of this model).
 */
module Counter {
  import opened Wrappers
  import opened Text
  import opened Numerals

  /** The contents of `counter.json`: `None` when the file does not exist. */
  type Stored = Option<map<string, int>>

  /** `str(MONTH)`: the key of the current month in the counter file. */
  function MonthKey(month: nat): string {
    DecimalString(month)
  }

  /**
   `load_counter`: the stored counters, with the current month added at 1
   when it is missing; `{month: 1}` when there is no file. Every month
   already in the file keeps its value, the current month included.
   */
  function LoadCounter(stored: Stored, month: nat): (data: map<string, int>)
    ensures MonthKey(month) in data
    ensures stored.None? ==> data.Keys == {MonthKey(month)} && data[MonthKey(month)] == 1
    ensures stored.Some? ==> data.Keys == stored.value.Keys + {MonthKey(month)}
    ensures stored.Some? ==> forall k :: k in stored.value ==> data[k] == stored.value[k]
    ensures stored.Some? && MonthKey(month) !in stored.value ==> data[MonthKey(month)] == 1
  {
    match stored
    case None => map[MonthKey(month) := 1]
    case Some(m) => if MonthKey(month) in m then m else m[MonthKey(month) := 1]
  }

  /** `counter[str(MONTH)]` after loading: the sequence number the next document gets. */
  function StartNumber(stored: Stored, month: nat): (n: int)
    ensures stored.None? ==> n == 1
    ensures stored.Some? && MonthKey(month) in stored.value ==> n == stored.value[MonthKey(month)]
    ensures stored.Some? && MonthKey(month) !in stored.value ==> n == 1
  {
    LoadCounter(stored, month)[MonthKey(month)]
  }

  /** What the reset button writes: `{str(MONTH): 1}`, forgetting every other month. */
  function ResetPayload(month: nat): (data: map<string, int>)
    ensures data.Keys == {MonthKey(month)} && data[MonthKey(month)] == 1
  {
    map[MonthKey(month) := 1]
  }

  /** After a reset the next document of the month is number 1 again, and loading changes nothing. */
  lemma ResetThenLoad(month: nat)
    ensures LoadCounter(Some(ResetPayload(month)), month) == ResetPayload(month)
    ensures StartNumber(Some(ResetPayload(month)), month) == 1
  {
  }

  /** `f"{MONTH}{str(current).zfill(3)}"`. */
  function DocId(month: nat, n: int): string {
    MonthKey(month) + ZFill(IntString(n), 3)
  }

  /** The ID format of a month, as a function of the sequence number. */
  function MonthIds(month: nat): int -> string {
    n => DocId(month, n)
  }

  /** `f"JCR_{doc_id}.docx"`: the name of the generated Word file. */
  function FileName(docId: string): string {
    "JCR_" + docId + ".docx"
  }

  /** The file name is "JCR_", then the ID, then ".docx", so the ID can be read back from it. */
  lemma FileNameParts(docId: string)
    ensures var name := FileName(docId);
      && |name| == |docId| + 9
      && name[..4] == "JCR_" && name[4..4 + |docId|] == docId && name[4 + |docId|..] == ".docx"
  {
  }

  /**
   The ID of a month determines its sequence number: the month's numeral is
   followed by `str(n).zfill(3)`, which reads back as `n` for every integer.
   */
  lemma {:induction false} DocIdInjective(month: nat, a: int, b: int)
    ensures DocId(month, a) == DocId(month, b) <==> a == b
  {
    var key := MonthKey(month);
    if DocId(month, a) == DocId(month, b) {
      var za, zb := ZFill(IntString(a), 3), ZFill(IntString(b), 3);
      assert za == DocId(month, a)[|key|..];
      assert zb == DocId(month, b)[|key|..];
      ZFill3RoundTrip(a);
      ZFill3RoundTrip(b);
    }
  }

  /** `str(k).zfill(3)` for a non-negative `k`. */
  function Padded(k: nat): (z: string)
    ensures |z| >= 3 && AllDigits(z) && DigitsValue(z) == k
  {
    ZFill3Natural(k);
    ZFill(IntString(k), 3)
  }

  /** For non-negative numbers the padded numeral never gets shorter as the number grows. */
  lemma PaddedLengthMonotone(a: nat, b: nat)
    requires a <= b
    ensures |Padded(a)| <= |Padded(b)|
  {
    ZFill3Natural(a);
    ZFill3Natural(b);
    DecimalStringLengthMonotone(a, b);
  }

  lemma MulMonotone(v: nat, p: nat, q: nat)
    requires p <= q
    ensures v * p <= v * q
  {
  }

  /**
   Within a month, IDs of non-negative sequence numbers increase with the
   number, read as decimal numbers.
   */
  lemma {:induction false} DocIdIncreasing(month: nat, a: nat, b: nat)
    requires a < b
    ensures DigitsLess(DocId(month, a), DocId(month, b))
  {
    var key, za, zb := MonthKey(month), Padded(a), Padded(b);
    DecimalStringDigits(month);
    assert DocId(month, a) == key + za;
    assert DocId(month, b) == key + zb;
    DigitsValueAppend(key, za);
    DigitsValueAppend(key, zb);
    PaddedLengthMonotone(a, b);
    Pow10Monotone(|za|, |zb|);
    MulMonotone(month, Pow10(|za|), Pow10(|zb|));
  }

  /**
   IDs of different months can coincide: document 1001 of January and
   document 1 of November both get "11001".
   */
  lemma DocIdsCollideAcrossMonths()
    ensures DocId(1, 1001) == DocId(11, 1) == "11001"
  {
    assert DecimalString(1) == "1";
    assert DecimalString(11) == "11";
    assert DecimalString(1001) == "1001";
    assert Zeros(2) == "00";
    assert ZFill("1", 3) == "001";
  }

  /**
   The counter file after a batch of `n` documents: unchanged when nothing
   was processed, otherwise the loaded counters with the current month
   advanced by `n`.
   */
  function AfterBatch(stored: Stored, month: nat, n: nat): (saved: Stored)
    ensures n == 0 ==> saved == stored
    ensures n > 0 ==> saved.Some? && saved.value.Keys == LoadCounter(stored, month).Keys
    ensures n > 0 ==> saved.value[MonthKey(month)] == StartNumber(stored, month) + n
    ensures n > 0 && stored.Some? ==>
              forall k :: k in stored.value && k != MonthKey(month) ==> saved.value[k] == stored.value[k]
  {
    if n == 0 then stored
    else Some(LoadCounter(stored, month)[MonthKey(month) := StartNumber(stored, month) + n])
  }

  /** The next batch numbers on from where the previous one stopped. */
  lemma {:induction false} AfterBatchStart(stored: Stored, month: nat, n: nat)
    ensures StartNumber(AfterBatch(stored, month, n), month) == StartNumber(stored, month) + n
  {
    if n > 0 {
      var saved := AfterBatch(stored, month, n);
      assert MonthKey(month) in saved.value;
    }
  }

  /** Two batches in a row leave the same counter file as one batch with all the documents. */
  lemma {:induction false} TwoBatches(stored: Stored, month: nat, a: nat, b: nat)
    ensures AfterBatch(AfterBatch(stored, month, a), month, b) == AfterBatch(stored, month, a + b)
  {
    if a > 0 && b > 0 {
      var key := MonthKey(month);
      var mid := AfterBatch(stored, month, a);
      AfterBatchStart(stored, month, a);
      assert LoadCounter(mid, month) == mid.value;
      var l := LoadCounter(stored, month);
      assert mid.value[key := StartNumber(mid, month) + b] == l[key := StartNumber(stored, month) + a + b];
    }
  }

  /** With `{"6": 5}` stored, three documents in June get 6005, 6006, 6007 and leave `{"6": 8}`. */
  lemma JuneExample()
    ensures StartNumber(Some(map["6" := 5]), 6) == 5
    ensures [DocId(6, 5), DocId(6, 6), DocId(6, 7)] == ["6005", "6006", "6007"]
    ensures AfterBatch(Some(map["6" := 5]), 6, 3) == Some(map["6" := 8])
  {
    assert MonthKey(6) == "6";
    assert Zeros(2) == "00";
    assert IntString(5) == "5" && IntString(6) == "6" && IntString(7) == "7";
    assert ZFill("5", 3) == "005";
    assert ZFill("6", 3) == "006";
    assert ZFill("7", 3) == "007";
    assert DocId(6, 5) == "6" + "005" == "6005";
    assert DocId(6, 6) == "6" + "006" == "6006";
    assert DocId(6, 7) == "6" + "007" == "6007";
    assert LoadCounter(Some(map["6" := 5]), 6) == map["6" := 5];
    assert map["6" := 5]["6" := 8] == map["6" := 8];
  }
}
