/** The CSV import of the admin area (`handleFileUpload`): header detection,
    row validation, the duplicate check against the phrases already stored,
    record construction with defaults, and the import statistics. */
module ImportRows {
  import opened Text

  /** One CSV row as the parser returns it (no header mapping): its cells in
      column order. A column past the end of the row reads as missing. */
  type Row = seq<string>

  /** The string operations the import relies on: the platform's
      `toLowerCase`, `trim` and `parseInt` (None standing for NaN), and the
      pinyin generator. */
  datatype TextOps = TextOps(
    lower: string -> string,
    trim: string -> string,
    pinyin: string -> string,
    parseInt: string -> Option<int>)

  /** A row of the `phrases` table as the import inserts it. */
  datatype PhraseRecord = PhraseRecord(
    english: string,
    chinese: string,
    pinyin: string,
    category: string,
    difficultyLevel: int,
    isActive: bool)

  /** What happens to one data row. */
  datatype Outcome = Invalid | Duplicate | Accepted(record: PhraseRecord)

  /** The numbers shown once an import completes. */
  datatype ImportStats = ImportStats(total: nat, imported: nat, skipped: nat)

  /** `row[i]`: the cell, or None when the row is shorter. */
  function Cell(row: Row, i: nat): (c: Option<string>)
    ensures c.Some? <==> i < |row|
    ensures c.Some? ==> c.value == row[i]
  {
    if i < |row| then Some(row[i]) else None
  }

  /** The duplicate key of an English text: lower-cased, then trimmed. */
  function Key(s: string, ops: TextOps): string
  {
    ops.trim(ops.lower(s))
  }

  /** The keys of the English texts already stored. */
  function ExistingKeys(existing: seq<string>, ops: TextOps): (keys: set<string>)
    ensures forall s :: s in existing ==> Key(s, ops) in keys
    ensures forall k :: k in keys ==> exists s :: s in existing && Key(s, ops) == k
  {
    set s | s in existing :: Key(s, ops)
  }

  /** The first row is a header when its first cell is a string whose key
      is `english`. */
  predicate IsHeader(rows: seq<Row>, ops: TextOps)
  {
    |rows| > 0 && Cell(rows[0], 0).Some? && Key(rows[0][0], ops) == "english"
  }

  /** Where the data rows begin: after the header, if there is one. */
  function DataStart(rows: seq<Row>, ops: TextOps): (start: nat)
    ensures start <= |rows|
    ensures start == 1 <==> IsHeader(rows, ops)
    ensures start == 0 <==> !IsHeader(rows, ops)
  {
    if IsHeader(rows, ops) then 1 else 0
  }

  /** `categoryText || 'general'`: an absent or empty category becomes
      `general`; the category is never empty. */
  function Category(c: Option<string>): (category: string)
    ensures category != ""
    ensures Truthy(c) ==> category == c.value
    ensures !Truthy(c) ==> category == "general"
  {
    if Truthy(c) then c.value else "general"
  }

  /** `parseInt(difficultyText) || 1`: NaN (also for a missing cell) and 0
      both fall back to 1, so the level is never 0. */
  function Difficulty(c: Option<string>, parseInt: string -> Option<int>): (level: int)
    ensures level != 0
    ensures level == 1 || (c.Some? && parseInt(c.value) == Some(level))
    ensures c.Some? && parseInt(c.value).Some? && parseInt(c.value).value != 0 ==> level == parseInt(c.value).value
  {
    if c.None? then 1
    else match parseInt(c.value)
      case None => 1
      case Some(n) => if n == 0 then 1 else n
  }

  /** The record built from a row with both texts present. */
  function MakeRecord(row: Row, ops: TextOps): PhraseRecord
    requires |row| >= 2
  {
    PhraseRecord(ops.trim(row[0]), ops.trim(row[1]), ops.pinyin(row[1]),
      Category(Cell(row, 2)), Difficulty(Cell(row, 3), ops.parseInt), true)
  }

  /** One data row: invalid when either text is missing or empty (tested
      before trimming), a duplicate when its English key is already stored,
      accepted otherwise. */
  function Classify(row: Row, existing: set<string>, ops: TextOps): Outcome
  {
    if !Truthy(Cell(row, 0)) || !Truthy(Cell(row, 1)) then Invalid
    else if Key(row[0], ops) in existing then Duplicate
    else Accepted(MakeRecord(row, ops))
  }

  /** The records the import inserts, in file order. */
  function AcceptedRows(rows: seq<Row>, existing: set<string>, ops: TextOps): seq<PhraseRecord>
    decreases |rows|
  {
    if rows == [] then []
    else
      var last := Classify(rows[|rows| - 1], existing, ops);
      AcceptedRows(rows[..|rows| - 1], existing, ops) + (if last.Accepted? then [last.record] else [])
  }

  /** How many rows the duplicate check drops (`skippedCount`). */
  function DuplicateRows(rows: seq<Row>, existing: set<string>, ops: TextOps): nat
    decreases |rows|
  {
    if rows == [] then 0
    else
      var last := Classify(rows[|rows| - 1], existing, ops);
      DuplicateRows(rows[..|rows| - 1], existing, ops) + (if last.Duplicate? then 1 else 0)
  }

  /** How many rows validation drops; these are not counted anywhere. */
  function InvalidRows(rows: seq<Row>, existing: set<string>, ops: TextOps): nat
    decreases |rows|
  {
    if rows == [] then 0
    else
      var last := Classify(rows[|rows| - 1], existing, ops);
      InvalidRows(rows[..|rows| - 1], existing, ops) + (if last.Invalid? then 1 else 0)
  }

  /** The row loop of `handleFileUpload`: skip a header, then drop invalid
      rows silently, count and drop duplicates, and collect the records of
      the rest. */
  method ProcessRows(rawRows: seq<Row>, existing: set<string>, ops: TextOps)
    returns (validRows: seq<PhraseRecord>, skippedCount: nat)
    ensures validRows == AcceptedRows(rawRows[DataStart(rawRows, ops)..], existing, ops)
    ensures skippedCount == DuplicateRows(rawRows[DataStart(rawRows, ops)..], existing, ops)
  {
    validRows, skippedCount := [], 0;
    var startingIndex := 0;
    if |rawRows| > 0 && Cell(rawRows[0], 0).Some? && ops.trim(ops.lower(rawRows[0][0])) == "english" {
      startingIndex := 1;
    }
    ghost var seen: seq<Row> := [];
    for i := startingIndex to |rawRows|
      invariant seen == rawRows[startingIndex..i]
      invariant validRows == AcceptedRows(seen, existing, ops)
      invariant skippedCount == DuplicateRows(seen, existing, ops)
    {
      var row := rawRows[i];
      RowsSnoc(seen, row, existing, ops);
      seen := seen + [row];
      var englishText := Cell(row, 0);
      var chineseText := Cell(row, 1);
      var categoryText := Cell(row, 2);
      var difficultyText := Cell(row, 3);
      if !Truthy(englishText) || !Truthy(chineseText) {
        continue;
      }
      if ops.trim(ops.lower(englishText.value)) in existing {
        skippedCount := skippedCount + 1;
        continue;
      }
      var phrasePinyin := ops.pinyin(chineseText.value);
      validRows := validRows + [PhraseRecord(ops.trim(englishText.value), ops.trim(chineseText.value),
        phrasePinyin, Category(categoryText), Difficulty(difficultyText, ops.parseInt), true)];
    }
    assert rawRows[startingIndex..|rawRows|] == rawRows[DataStart(rawRows, ops)..];
  }

  /** One more row adds its record when accepted and one to the count when
      a duplicate. */
  lemma RowsSnoc(rows: seq<Row>, row: Row, existing: set<string>, ops: TextOps)
    ensures AcceptedRows(rows + [row], existing, ops) == AcceptedRows(rows, existing, ops)
      + (if Classify(row, existing, ops).Accepted? then [Classify(row, existing, ops).record] else [])
    ensures DuplicateRows(rows + [row], existing, ops) == DuplicateRows(rows, existing, ops)
      + (if Classify(row, existing, ops).Duplicate? then 1 else 0)
  {
    assert (rows + [row])[..|rows|] == rows;
  }

  /** Every data row is accepted, a duplicate or invalid: the three counts
      add up to the number of data rows. */
  lemma {:induction false} OutcomeCounts(rows: seq<Row>, existing: set<string>, ops: TextOps)
    ensures |AcceptedRows(rows, existing, ops)| + DuplicateRows(rows, existing, ops)
      + InvalidRows(rows, existing, ops) == |rows|
    decreases |rows|
  {
    if rows != [] {
      OutcomeCounts(rows[..|rows| - 1], existing, ops);
    }
  }

  /** The statistics of a completed import: imported and skipped together
      never exceed the total, which counts every raw row, the header too. */
  lemma StatsBound(rawRows: seq<Row>, existing: set<string>, ops: TextOps)
    ensures var data := rawRows[DataStart(rawRows, ops)..];
      |AcceptedRows(data, existing, ops)| + DuplicateRows(data, existing, ops) <= |rawRows|
  {
    OutcomeCounts(rawRows[DataStart(rawRows, ops)..], existing, ops);
  }

  /** Processing `a` then `b` is processing `a + b`: accepted records keep
      file order and the counts add up. */
  lemma {:induction false} RowsAppend(a: seq<Row>, b: seq<Row>, existing: set<string>, ops: TextOps)
    ensures AcceptedRows(a + b, existing, ops) == AcceptedRows(a, existing, ops) + AcceptedRows(b, existing, ops)
    ensures DuplicateRows(a + b, existing, ops) == DuplicateRows(a, existing, ops) + DuplicateRows(b, existing, ops)
    decreases |b|
  {
    if b == [] {
      assert a + b == a;
    } else {
      var front, last := b[..|b| - 1], b[|b| - 1];
      RowsAppend(a, front, existing, ops);
      assert b == front + [last];
      AppendSnoc(a, front, last);
      RowsSnoc(a + front, last, existing, ops);
      RowsSnoc(front, last, existing, ops);
    }
  }

  lemma AppendSnoc<T>(a: seq<T>, front: seq<T>, last: T)
    ensures a + (front + [last]) == (a + front) + [last]
  {
  }

  /** A record is inserted exactly when some data row is accepted with it. */
  lemma {:induction false} AcceptedMembership(rows: seq<Row>, existing: set<string>, ops: TextOps, rec: PhraseRecord)
    ensures rec in AcceptedRows(rows, existing, ops) <==>
      exists i :: 0 <= i < |rows| && Classify(rows[i], existing, ops) == Accepted(rec)
    decreases |rows|
  {
    if rows != [] {
      var front := rows[..|rows| - 1];
      AcceptedMembership(front, existing, ops, rec);
      if rec in AcceptedRows(rows, existing, ops) && rec !in AcceptedRows(front, existing, ops) {
        assert Classify(rows[|rows| - 1], existing, ops) == Accepted(rec);
      }
      if exists i :: 0 <= i < |rows| && Classify(rows[i], existing, ops) == Accepted(rec) {
        var i :| 0 <= i < |rows| && Classify(rows[i], existing, ops) == Accepted(rec);
        if i < |rows| - 1 {
          assert front[i] == rows[i];
        }
      }
    }
  }

  /** An accepted row has both texts present, a new English key, and a
      record with the trimmed texts, a non-empty category, a non-zero level
      and `is_active` set. */
  lemma AcceptedRecordShape(row: Row, existing: set<string>, ops: TextOps)
    requires Classify(row, existing, ops).Accepted?
    ensures |row| >= 2 && row[0] != "" && row[1] != ""
    ensures Key(row[0], ops) !in existing
    ensures var rec := Classify(row, existing, ops).record;
      && rec.english == ops.trim(row[0]) && rec.chinese == ops.trim(row[1])
      && rec.pinyin == ops.pinyin(row[1])
      && rec.category != "" && rec.difficultyLevel != 0 && rec.isActive
  {
  }

  /** One more copy of an accepted row adds its record and no duplicate. */
  lemma CopiesStep(row: Row, n: nat, existing: set<string>, ops: TextOps)
    requires Classify(row, existing, ops).Accepted? && n > 0
    ensures AcceptedRows(Repeat(row, n), existing, ops) ==
      AcceptedRows(Repeat(row, n - 1), existing, ops) + [Classify(row, existing, ops).record]
    ensures DuplicateRows(Repeat(row, n), existing, ops) == DuplicateRows(Repeat(row, n - 1), existing, ops)
  {
    assert Repeat(row, n)[..n - 1] == Repeat(row, n - 1);
  }

  /** Every copy of an accepted row yields its record. */
  lemma {:induction false} CopiesAccepted(row: Row, n: nat, existing: set<string>, ops: TextOps)
    requires Classify(row, existing, ops).Accepted?
    ensures AcceptedRows(Repeat(row, n), existing, ops) == seq(n, k => Classify(row, existing, ops).record)
  {
    if n > 0 {
      CopiesAccepted(row, n - 1, existing, ops);
      CopiesStep(row, n, existing, ops);
    }
  }

  /** No copy of an accepted row is counted as a duplicate. */
  lemma {:induction false} CopiesNoDuplicate(row: Row, n: nat, existing: set<string>, ops: TextOps)
    requires Classify(row, existing, ops).Accepted?
    ensures DuplicateRows(Repeat(row, n), existing, ops) == 0
  {
    if n > 0 {
      CopiesNoDuplicate(row, n - 1, existing, ops);
      CopiesStep(row, n, existing, ops);
    }
  }

  /** The stored keys are fetched once and never extended during the loop,
      so a new phrase repeated `n` times in one file is inserted `n` times. */
  lemma RepeatedRowsAllAccepted(row: Row, n: nat, existing: set<string>, ops: TextOps)
    requires Classify(row, existing, ops).Accepted?
    ensures |AcceptedRows(Repeat(row, n), existing, ops)| == n
    ensures forall k :: 0 <= k < n ==> AcceptedRows(Repeat(row, n), existing, ops)[k] == Classify(row, existing, ops).record
    ensures DuplicateRows(Repeat(row, n), existing, ops) == 0
  {
    CopiesAccepted(row, n, existing, ops);
    CopiesNoDuplicate(row, n, existing, ops);
  }

  /** Validation looks at the untrimmed text, so a row whose English cell
      is only blanks passes it; when such a row is new, its record's English
      text is the trimmed (empty) string. */
  lemma BlankEnglishAccepted(chinese: string, existing: set<string>, ops: TextOps)
    requires chinese != "" && ops.trim(" ") == "" && ops.lower(" ") == " " && "" !in existing
    ensures Classify([" ", chinese], existing, ops) == Accepted(MakeRecord([" ", chinese], ops))
    ensures Classify([" ", chinese], existing, ops).record.english == ""
  {
  }

  /** The import dialog's state and the calls it makes: the insert batches
      sent to the database and the success callback. */
  class ImportModal {
    var importing: bool
    var stats: Option<ImportStats>
    var error: Option<string>
    var insertCalls: seq<seq<PhraseRecord>>   // batches handed to `insert`, oldest first
    var successCalls: nat                     // times `onImportSuccess` ran

    /** Shown statistics never claim more rows than the file had. */
    ghost predicate Valid()
      reads this
    {
      stats.Some? ==> stats.value.imported + stats.value.skipped <= stats.value.total
    }

    constructor ()
      ensures Valid()
      ensures !importing && stats == None && error == None
      ensures insertCalls == [] && successCalls == 0
    {
      importing, stats, error := false, None, None;
      insertCalls, successCalls := [], 0;
    }

    /** `handleFileUpload` run to its end. The stored English texts, the
        parser's result and the insert's error are the outcomes of the
        remote calls. With no file nothing changes. A failed fetch or parse
        records its message; a failed insert records its message and leaves
        the statistics as they were. Otherwise the statistics are set, and
        the insert and the success callback happen only when some row was
        accepted. Importing is over in every case. */
    method HandleFileUpload(hasFile: bool, fetched: Remote<seq<string>>, parsed: Remote<seq<Row>>,
                            insertError: Option<string>, ops: TextOps)
      requires Valid()
      modifies this
      ensures Valid()
      ensures !hasFile ==>
        importing == old(importing) && stats == old(stats) && error == old(error)
        && insertCalls == old(insertCalls) && successCalls == old(successCalls)
      ensures hasFile ==> !importing
      ensures hasFile && fetched.Failed? ==>
        error == Some(fetched.message) && stats == old(stats)
        && insertCalls == old(insertCalls) && successCalls == old(successCalls)
      ensures hasFile && fetched.Ok? && parsed.Failed? ==>
        error == Some("Failed to parse CSV: " + parsed.message) && stats == old(stats)
        && insertCalls == old(insertCalls) && successCalls == old(successCalls)
      ensures hasFile && fetched.Ok? && parsed.Ok? ==>
        var rows := parsed.data;
        var data := rows[DataStart(rows, ops)..];
        var keys := ExistingKeys(fetched.data, ops);
        var valid := AcceptedRows(data, keys, ops);
        && insertCalls == old(insertCalls) + (if valid != [] then [valid] else [])
        && (if valid != [] && insertError.Some? then
              error == Some(insertError.value) && stats == old(stats) && successCalls == old(successCalls)
            else
              error == None
              && stats == Some(ImportStats(|rows|, |valid|, DuplicateRows(data, keys, ops)))
              && successCalls == old(successCalls) + (if valid != [] then 1 else 0))
    {
      if !hasFile {
        return;
      }
      error := None;
      importing := true;
      if fetched.Failed? {
        error := Some(fetched.message);
      } else if parsed.Failed? {
        error := Some("Failed to parse CSV: " + parsed.message);
      } else {
        var existingEnglishSet := set s | s in fetched.data :: ops.trim(ops.lower(s));
        assert existingEnglishSet == ExistingKeys(fetched.data, ops);
        ImportParsed(parsed.data, existingEnglishSet, insertError, ops);
      }
      importing := false;
    }

    /** The part of `handleFileUpload` after a successful parse: the rows
        are processed, the accepted ones inserted when there are any, and
        unless the insert fails the statistics are set and, when something
        was inserted, the success callback runs. */
    method ImportParsed(rawRows: seq<Row>, existing: set<string>, insertError: Option<string>, ops: TextOps)
      requires Valid()
      modifies this`stats, this`error, this`insertCalls, this`successCalls
      ensures Valid()
      ensures var data := rawRows[DataStart(rawRows, ops)..];
        var valid := AcceptedRows(data, existing, ops);
        && insertCalls == old(insertCalls) + (if valid != [] then [valid] else [])
        && (if valid != [] && insertError.Some? then
              error == Some(insertError.value) && stats == old(stats) && successCalls == old(successCalls)
            else
              error == old(error)
              && stats == Some(ImportStats(|rawRows|, |valid|, DuplicateRows(data, existing, ops)))
              && successCalls == old(successCalls) + (if valid != [] then 1 else 0))
    {
      var validRows, skippedCount := ProcessRows(rawRows, existing, ops);
      StatsBound(rawRows, existing, ops);
      if |validRows| > 0 {
        insertCalls := insertCalls + [validRows];
        if insertError.Some? {
          error := Some(insertError.value);
          return;
        }
      }
      stats := Some(ImportStats(|rawRows|, |validRows|, skippedCount));
      if |validRows| > 0 {
        successCalls := successCalls + 1;
      }
    }
  }
}
