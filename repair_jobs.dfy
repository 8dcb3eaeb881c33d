/** The reporting-date repair job: posts whose reporting window is missing
    get it recomputed from their campaign's dates plus six weeks. The posts
    and collaborations databases are given as `Server` functions; what the
    job reads, the statements it sends and the update tuples it builds are
    modelled, the printed progress lines are not. */
module RepairJobs {
  import opened Wrappers
  import opened Lists
  import opened PyDict
  import opened PyText
  import CivilTime
  import opened Sql
  import Queries
  import SrcCollabs
  import SrcPosts

  // ----- the pure steps -----

  /** `diff(li1, li2)`: the elements of one list that are not in the other,
      each once; those only in `li1` come first. */
  function Diff<T(==,!new)>(l1: seq<T>, l2: seq<T>): (r: seq<T>)
    ensures Distinct(r)
    ensures forall x :: x in r <==> (x in l1 && x !in l2) || (x in l2 && x !in l1)
  {
    var a := Dedup(Without(l1, l2));
    var b := Dedup(Without(l2, l1));
    forall i, j | 0 <= i < |a| && 0 <= j < |b|
      ensures a[i] != b[j]
    {
      assert a[i] in a && b[j] in b;
    }
    a + b
  }

  /** A list differs from itself in nothing. */
  lemma DiffSelf<T(!new)>(l: seq<T>)
    ensures Diff(l, l) == []
  {
    WithoutSubset(l, l);
  }

  /** `[r[col] for r in rows]`: a row without the column raises `KeyError`. */
  function Column(rows: seq<Row>, col: string): (r: Result<seq<Value>, DbError>)
    ensures r.Success? <==> forall i :: 0 <= i < |rows| ==> col in rows[i]
    ensures r.Success? ==> |r.value| == |rows| && forall i :: 0 <= i < |rows| ==> r.value[i] == rows[i][col]
    ensures r.Failure? ==> r.error == KeyError(col)
    decreases |rows|
  {
    if rows == [] then Success([])
    else if col !in rows[0] then Failure(KeyError(col))
    else
      match Column(rows[1..], col)
      case Failure(e) => Failure(e)
      case Success(vs) => Success([rows[0][col]] + vs)
  }

  lemma ColumnOne(row: Row, col: string)
    requires col in row
    ensures Column([row], col) == Success([row[col]])
  {
    assert [row][1..] == [];
    assert Column([], col) == Success([]);
    assert [row[col]] + [] == [row[col]];
  }

  /** `str(v)` of each value. */
  function StrAll(vs: seq<Value>): (r: seq<string>)
    ensures |r| == |vs| && forall i :: 0 <= i < |vs| ==> r[i] == Str(vs[i])
  {
    seq(|vs|, i requires 0 <= i < |vs| => Str(vs[i]))
  }

  /** `','.join('"{0}"'.format(w) for w in ids)`: empty exactly for an
      empty id list, since every id is written between two quotes. */
  function IdList(ids: seq<Value>): (r: string)
    ensures r == "" <==> ids == []
  {
    if ids != [] then
      assert |QuoteAll(StrAll(ids))[0]| >= 2;
      QuoteJoin(StrAll(ids))
    else QuoteJoin(StrAll(ids))
  }

  predicate AllInts(vs: seq<Value>) {
    forall i :: 0 <= i < |vs| ==> vs[i].Int?
  }

  /** No id is written with a comma. */
  predicate CommaFree(ids: seq<Value>) {
    forall i :: 0 <= i < |ids| ==> ',' !in Str(ids[i])
  }

  /** No id is written with a newline or a tab. */
  predicate LineFree(ids: seq<Value>) {
    forall i :: 0 <= i < |ids| ==> '\n' !in Str(ids[i]) && '\t' !in Str(ids[i])
  }

  lemma {:induction false} JoinLacks(sep: string, parts: seq<string>, c: char)
    requires c !in sep
    requires forall i :: 0 <= i < |parts| ==> c !in parts[i]
    ensures c !in Join(sep, parts)
    decreases |parts|
  {
    if |parts| > 1 {
      JoinLacks(sep, parts[1..], c);
    }
  }

  /** The ids are written as quoted texts, comma-separated in post order;
      when no id is written with a comma, the list splits back at its commas
      into exactly those pieces. */
  lemma IdListSplits(ids: seq<Value>)
    requires |ids| >= 1 && CommaFree(ids)
    ensures Split(IdList(ids), ',') == QuoteAll(StrAll(ids))
  {
    QuoteJoinSplit(StrAll(ids));
  }

  /** An id written with a comma comes back from the split in two pieces,
      neither of them a quoted id. */
  lemma CommaIdSplitsInTwo()
    ensures IdList([Text("1,2")]) == "\"1,2\""
    ensures Split(IdList([Text("1,2")]), ',') == ["\"1", "2\""]
  {
    assert StrAll([Text("1,2")]) == ["1,2"];
    assert QuoteAll(["1,2"]) == ["\"1,2\""] by {
      assert QuoteAll(["1,2"])[0] == Quote("1,2") == "\"" + "1,2" + "\"" == "\"1,2\"";
    }
    assert "\"1" + [','] + "2\"" == "\"1,2\"";
    SplitPiece("\"1", ',', "2\"");
    SplitWhole("2\"", ',');
  }

  /** Integer ids, the usual case, are written with neither commas nor line
      breaks; each piece is the quoted decimal. */
  lemma IdListOfInts(ids: seq<Value>)
    requires |ids| >= 1 && AllInts(ids)
    ensures CommaFree(ids) && LineFree(ids)
    ensures Split(IdList(ids), ',') == QuoteAll(StrAll(ids))
    ensures forall i :: 0 <= i < |ids| ==> QuoteAll(StrAll(ids))[i] == "\"" + Decimal(ids[i].i) + "\""
  {
    IdListSplits(ids);
  }

  /** Ids written without newlines or tabs survive the cleaning of the join
      query intact. */
  lemma IdListIsClean(ids: seq<Value>)
    requires LineFree(ids)
    ensures Queries.Clean(IdList(ids)) == IdList(ids)
  {
    var q := QuoteAll(StrAll(ids));
    forall i | 0 <= i < |q|
      ensures '\n' !in q[i] && '\t' !in q[i]
    {
      assert q[i] == "\"" + Str(ids[i]) + "\"";
    }
    JoinLacks(",", q, '\n');
    JoinLacks(",", q, '\t');
    RemoveAbsent(IdList(ids), '\n');
    RemoveAbsent(IdList(ids), '\t');
  }

  /** For such ids, the statement sent to the collaborations database is
      the cleaned join text with the id list spliced into `IN (...)`. */
  lemma JoinQueryOfIds(ids: seq<Value>)
    requires LineFree(ids)
    ensures Queries.JoinQuery(IdList(ids))
         == Queries.Clean(Queries.JoinPrefix) + IdList(ids) + Queries.Clean(Queries.JoinSuffix)
  {
    Queries.JoinQuerySplices(IdList(ids));
    IdListIsClean(ids);
  }

  /** `(v + timedelta(weeks=6)).strftime("%Y-%m-%d %H:%M:%S")`. */
  function ShiftSixWeeks(v: Value): (r: Result<string, DbError>)
    ensures r.Success? <==> v.Timestamp? && CivilTime.AddTimedelta(v.t, CivilTime.SixWeeks).Some?
    ensures v.Timestamp? && r.Failure? ==> r.error == DateOverflow
    ensures v.Text? ==> r == Failure(ConcatStr)
    ensures v.Null? || v.Int? ==> r == Failure(UnsupportedAdd(TypeName(v)))
  {
    match v
    case Timestamp(t) =>
      (match CivilTime.AddTimedelta(t, CivilTime.SixWeeks)
       case None => Failure(DateOverflow)
       case Some(u) => Success(CivilTime.Format(u)))
    case Text(_) => Failure(ConcatStr)
    case _ => Failure(UnsupportedAdd(TypeName(v)))
  }

  /** A shifted date reads back as the instant exactly 42 days later, at
      the same time of day. */
  lemma ShiftSixWeeksReadsBack(v: Value)
    requires ShiftSixWeeks(v).Success?
    ensures var u := CivilTime.Parse(ShiftSixWeeks(v).value);
            && u.Some?
            && CivilTime.Ordinal(u.value.date) == CivilTime.Ordinal(v.t.date) + CivilTime.SixWeeks
            && u.value.secondOfDay == v.t.secondOfDay
  {
    CivilTime.ParseFormat(CivilTime.AddTimedelta(v.t, CivilTime.SixWeeks).value);
  }

  /** The shifted text is the unique one: any instant 42 days later at the
      same time of day is written the same way. */
  lemma ShiftSixWeeksIsFormat(t: CivilTime.Instant, u: CivilTime.Instant)
    requires CivilTime.Ordinal(u.date) == CivilTime.Ordinal(t.date) + CivilTime.SixWeeks
    requires u.secondOfDay == t.secondOfDay
    ensures ShiftSixWeeks(Timestamp(t)) == Success(CivilTime.Format(u))
  {
    CivilTime.InRangeByOrdinal(u.date);
    CivilTime.SixWeeksLaterUnique(t, u);
  }

  /** The entry one obligation row adds to `values` in the NULL repair: the
      right-hand side (start, then end) is evaluated before the key. */
  function NullEntry(o: Row): (r: Result<(Value, (string, string)), DbError>)
    ensures r.Success? ==> "post_id" in o && r.value.0 == o["post_id"]
    ensures "start_date" !in o ==> r == Failure(KeyError("start_date"))
    ensures r == Failure(KeyError("post_id")) ==> "start_date" in o && "end_date" in o
  {
    if "start_date" !in o then Failure(KeyError("start_date"))
    else
      match ShiftSixWeeks(o["start_date"])
      case Failure(e) => Failure(e)
      case Success(start) =>
        if "end_date" !in o then Failure(KeyError("end_date"))
        else
          match ShiftSixWeeks(o["end_date"])
          case Failure(e) => Failure(e)
          case Success(end) =>
            if "post_id" !in o then Failure(KeyError("post_id"))
            else Success((o["post_id"], (start, end)))
  }

  /** The entry one campaign row adds to `values` in the 0001 repair. */
  function Year1Entry(c: Row): (r: Result<(Value, string), DbError>)
    ensures r.Success? ==> "post_id" in c && r.value.0 == c["post_id"]
    ensures "end_date" !in c ==> r == Failure(KeyError("end_date"))
    ensures r == Failure(KeyError("post_id")) ==> "end_date" in c
  {
    if "end_date" !in c then Failure(KeyError("end_date"))
    else
      match ShiftSixWeeks(c["end_date"])
      case Failure(e) => Failure(e)
      case Success(end) =>
        if "post_id" !in c then Failure(KeyError("post_id"))
        else Success((c["post_id"], end))
  }

  /** An obligation row is usable exactly when it has the three columns and
      both dates are timestamps that can be shifted; then it maps its post to
      both dates six weeks later, at the same time of day. */
  lemma NullEntryShifts(o: Row)
    ensures NullEntry(o).Success? <==>
              && "start_date" in o && "end_date" in o && "post_id" in o
              && o["start_date"].Timestamp? && o["end_date"].Timestamp?
              && CivilTime.AddTimedelta(o["start_date"].t, CivilTime.SixWeeks).Some?
              && CivilTime.AddTimedelta(o["end_date"].t, CivilTime.SixWeeks).Some?
    ensures NullEntry(o).Success? ==>
              NullEntry(o).value == (o["post_id"], (
                CivilTime.Format(CivilTime.AddTimedelta(o["start_date"].t, CivilTime.SixWeeks).value),
                CivilTime.Format(CivilTime.AddTimedelta(o["end_date"].t, CivilTime.SixWeeks).value)))
  {
  }

  /** A campaign row is usable exactly when it has both columns and its end
      date can be shifted; only the end date is written. */
  lemma Year1EntryShifts(c: Row)
    ensures Year1Entry(c).Success? <==>
              && "end_date" in c && "post_id" in c && c["end_date"].Timestamp?
              && CivilTime.AddTimedelta(c["end_date"].t, CivilTime.SixWeeks).Some?
    ensures Year1Entry(c).Success? ==>
              Year1Entry(c).value == (c["post_id"],
                CivilTime.Format(CivilTime.AddTimedelta(c["end_date"].t, CivilTime.SixWeeks).value))
  {
  }

  /** The entries of the rows, in row order, or the error of the first row
      that raises. */
  function RowEntries<E>(rows: seq<Row>, f: Row -> Result<(Value, E), DbError>): (r: Result<seq<(Value, E)>, DbError>)
    ensures r.Success? ==> |r.value| == |rows|
    decreases |rows|
  {
    if rows == [] then Success([])
    else
      match RowEntries(rows[..|rows| - 1], f)
      case Failure(e) => Failure(e)
      case Success(es) =>
        match f(rows[|rows| - 1])
        case Failure(e) => Failure(e)
        case Success(entry) => Success(es + [entry])
  }

  /** The loop gets through every row exactly when no row raises; then entry
      `i` is row `i`'s. Otherwise the first row that raises decides the
      error. */
  lemma {:induction false} RowEntriesRows<E>(rows: seq<Row>, f: Row -> Result<(Value, E), DbError>)
    ensures RowEntries(rows, f).Success? <==> forall i :: 0 <= i < |rows| ==> f(rows[i]).Success?
    ensures RowEntries(rows, f).Success? ==>
              |RowEntries(rows, f).value| == |rows|
              && forall i :: 0 <= i < |rows| ==> RowEntries(rows, f).value[i] == f(rows[i]).value
    ensures RowEntries(rows, f).Failure? ==>
              exists i :: 0 <= i < |rows| && f(rows[i]).Failure? && f(rows[i]).error == RowEntries(rows, f).error
                          && forall j :: 0 <= j < i ==> f(rows[j]).Success?
    decreases |rows|
  {
    if rows != [] {
      var n := |rows| - 1;
      RowEntriesRows(rows[..n], f);
      assert forall i :: 0 <= i < n ==> rows[..n][i] == rows[i];
      if RowEntries(rows[..n], f).Failure? {
        var i :| 0 <= i < n && f(rows[..n][i]).Failure? && f(rows[..n][i]).error == RowEntries(rows[..n], f).error
                 && forall j :: 0 <= j < i ==> f(rows[..n][j]).Success?;
        assert f(rows[i]).Failure? && f(rows[i]).error == RowEntries(rows, f).error;
      }
    }
  }

  /** Once a prefix of the rows raises, so does the whole loop, with the
      same error. */
  lemma {:induction false} RowEntriesStopsAt<E>(rows: seq<Row>, f: Row -> Result<(Value, E), DbError>, i: nat)
    requires i <= |rows|
    requires RowEntries(rows[..i], f).Failure?
    ensures RowEntries(rows, f) == RowEntries(rows[..i], f)
    decreases |rows|
  {
    if i < |rows| {
      var n := |rows| - 1;
      assert rows[..n][..i] == rows[..i];
      RowEntriesStopsAt(rows[..n], f, i);
    } else {
      assert rows[..i] == rows;
    }
  }

  /** One more row: the loop either stops at it or adds its entry. */
  lemma RowEntriesSnoc<E>(rows: seq<Row>, f: Row -> Result<(Value, E), DbError>, i: nat)
    requires i < |rows| && RowEntries(rows[..i], f).Success?
    ensures f(rows[i]).Failure? ==> RowEntries(rows, f) == Failure(f(rows[i]).error)
    ensures f(rows[i]).Success? ==>
              RowEntries(rows[..i + 1], f) == Success(RowEntries(rows[..i], f).value + [f(rows[i]).value])
  {
    assert rows[..i + 1][..i] == rows[..i];
    if f(rows[i]).Failure? {
      RowEntriesStopsAt(rows, f, i + 1);
    }
  }

  /** Row `j` is the last row whose entry is keyed `key`: every later row
      gets through the loop with another key. */
  predicate IsLastFor<E>(rows: seq<Row>, f: Row -> Result<(Value, E), DbError>, j: int, key: Value) {
    0 <= j < |rows| && forall j' :: j < j' < |rows| ==> f(rows[j']).Success? && f(rows[j']).value.0 != key
  }

  /** In `values` after the loop, the entry at each position is the entry of
      the last row with that key: a later row overwrites an earlier one. */
  lemma ValueFromLastRow<E>(rows: seq<Row>, f: Row -> Result<(Value, E), DbError>, i: nat)
    requires RowEntries(rows, f).Success?
    requires i < |AssignAll(RowEntries(rows, f).value)|
    ensures var values := AssignAll(RowEntries(rows, f).value);
            exists j :: IsLastFor(rows, f, j, values[i].0) && f(rows[j]) == Success(values[i])
  {
    var es := RowEntries(rows, f).value;
    var values := AssignAll(es);
    var k := values[i].0;
    assert Distinct(Keys(values)) by {
      AssignAllKeys(es);
    }
    assert LastValue(es, k) == Some(values[i].1) by {
      GetAt(values, i);
      AssignAllGet(es, k);
    }
    LastValueIsLast(es, k);
    var j :| 0 <= j < |es| && es[j] == (k, LastValue(es, k).value)
             && forall j' :: j < j' < |es| ==> es[j'].0 != k;
    RowEntriesRows(rows, f);
    assert f(rows[j]) == Success(values[i]);
    assert IsLastFor(rows, f, j, k);
  }

  // ----- the update tuples -----

  /** One tuple handed to `executemany`. */
  datatype UpdateRow =
    | BothDates(start: string, end: string, postId: Value)
    | EndDate(end: string, postId: Value)

  /** `[(v[0], v[1], k) for k, v in values.items()]`. */
  function NullBatch(values: Dict<Value, (string, string)>): (r: seq<UpdateRow>)
    ensures |r| == |values|
    ensures forall i :: 0 <= i < |values| ==> r[i] == BothDates(values[i].1.0, values[i].1.1, values[i].0)
  {
    seq(|values|, i requires 0 <= i < |values| => BothDates(values[i].1.0, values[i].1.1, values[i].0))
  }

  /** `[(v, k) for k, v in values.items()]`. */
  function Year1Batch(values: Dict<Value, string>): (r: seq<UpdateRow>)
    ensures |r| == |values|
    ensures forall i :: 0 <= i < |values| ==> r[i] == EndDate(values[i].1, values[i].0)
  {
    seq(|values|, i requires 0 <= i < |values| => EndDate(values[i].1, values[i].0))
  }

  /** The post id of each tuple. */
  function PostIds(batch: seq<UpdateRow>): (r: seq<Value>)
    ensures |r| == |batch| && forall i :: 0 <= i < |batch| ==> r[i] == batch[i].postId
  {
    seq(|batch|, i requires 0 <= i < |batch| => batch[i].postId)
  }

  /** The keys of `values` are the rows' post ids, each once, in the order
      they first occur. */
  lemma ValuesKeys<E>(rows: seq<Row>, f: Row -> Result<(Value, E), DbError>)
    requires RowEntries(rows, f).Success?
    requires forall j :: 0 <= j < |rows| ==> f(rows[j]).Success? ==> "post_id" in rows[j] && f(rows[j]).value.0 == rows[j]["post_id"]
    ensures Column(rows, "post_id").Success?
    ensures Keys(AssignAll(RowEntries(rows, f).value)) == Dedup(Column(rows, "post_id").value)
  {
    var es := RowEntries(rows, f).value;
    RowEntriesRows(rows, f);
    AssignAllKeys(es);
    assert Firsts(es) == Column(rows, "post_id").value;
  }

  /** Every row of the NULL repair that gets through the loop is keyed by
      its `post_id`. */
  lemma NullEntriesByPost(rows: seq<Row>)
    ensures forall j :: 0 <= j < |rows| ==> NullEntry(rows[j]).Success? ==> "post_id" in rows[j] && NullEntry(rows[j]).value.0 == rows[j]["post_id"]
  {
    forall j | 0 <= j < |rows| ensures NullEntry(rows[j]).Success? ==> "post_id" in rows[j] && NullEntry(rows[j]).value.0 == rows[j]["post_id"] {
      NullEntryShifts(rows[j]);
    }
  }

  lemma Year1EntriesByPost(rows: seq<Row>)
    ensures forall j :: 0 <= j < |rows| ==> Year1Entry(rows[j]).Success? ==> "post_id" in rows[j] && Year1Entry(rows[j]).value.0 == rows[j]["post_id"]
  {
    forall j | 0 <= j < |rows| ensures Year1Entry(rows[j]).Success? ==> "post_id" in rows[j] && Year1Entry(rows[j]).value.0 == rows[j]["post_id"] {
      Year1EntryShifts(rows[j]);
    }
  }

  /** The NULL repair's tuples: one per distinct obligation post id, in the
      order the ids first occur. */
  lemma NullBatchIds(rows: seq<Row>)
    requires RowEntries(rows, NullEntry).Success?
    ensures Column(rows, "post_id").Success?
    ensures PostIds(NullBatch(AssignAll(RowEntries(rows, NullEntry).value))) == Dedup(Column(rows, "post_id").value)
  {
    var values := AssignAll(RowEntries(rows, NullEntry).value);
    NullEntriesByPost(rows);
    ValuesKeys(rows, NullEntry);
    assert PostIds(NullBatch(values)) == Keys(values);
  }

  /** Each NULL repair tuple holds the start and end of the last obligation
      row for its post, shifted by six weeks. */
  lemma NullBatchFromLastRow(rows: seq<Row>)
    requires RowEntries(rows, NullEntry).Success?
    ensures var batch := NullBatch(AssignAll(RowEntries(rows, NullEntry).value));
            forall i :: 0 <= i < |batch| ==>
              exists j :: IsLastFor(rows, NullEntry, j, batch[i].postId) && NullEntry(rows[j]) == Success((batch[i].postId, (batch[i].start, batch[i].end)))
  {
    var batch := NullBatch(AssignAll(RowEntries(rows, NullEntry).value));
    forall i | 0 <= i < |batch|
      ensures exists j :: IsLastFor(rows, NullEntry, j, batch[i].postId) && NullEntry(rows[j]) == Success((batch[i].postId, (batch[i].start, batch[i].end)))
    {
      NullTupleFromLastRow(rows, i);
    }
  }

  lemma NullTupleFromLastRow(rows: seq<Row>, i: nat)
    requires RowEntries(rows, NullEntry).Success?
    requires i < |AssignAll(RowEntries(rows, NullEntry).value)|
    ensures var batch := NullBatch(AssignAll(RowEntries(rows, NullEntry).value));
            exists j :: IsLastFor(rows, NullEntry, j, batch[i].postId) && NullEntry(rows[j]) == Success((batch[i].postId, (batch[i].start, batch[i].end)))
  {
    var values := AssignAll(RowEntries(rows, NullEntry).value);
    var batch := NullBatch(values);
    assert values[i] == (batch[i].postId, (batch[i].start, batch[i].end));
    ValueFromLastRow(rows, NullEntry, i);
  }

  /** The 0001 repair's tuples: one per distinct campaign post id, in the
      order the ids first occur. */
  lemma Year1BatchIds(rows: seq<Row>)
    requires RowEntries(rows, Year1Entry).Success?
    ensures Column(rows, "post_id").Success?
    ensures PostIds(Year1Batch(AssignAll(RowEntries(rows, Year1Entry).value))) == Dedup(Column(rows, "post_id").value)
  {
    var values := AssignAll(RowEntries(rows, Year1Entry).value);
    Year1EntriesByPost(rows);
    ValuesKeys(rows, Year1Entry);
    assert PostIds(Year1Batch(values)) == Keys(values);
  }

  /** Each 0001 repair tuple holds the shifted end date of the last campaign
      row for its post. */
  lemma Year1BatchFromLastRow(rows: seq<Row>)
    requires RowEntries(rows, Year1Entry).Success?
    ensures var batch := Year1Batch(AssignAll(RowEntries(rows, Year1Entry).value));
            forall i :: 0 <= i < |batch| ==>
              exists j :: IsLastFor(rows, Year1Entry, j, batch[i].postId) && Year1Entry(rows[j]) == Success((batch[i].postId, batch[i].end))
  {
    var batch := Year1Batch(AssignAll(RowEntries(rows, Year1Entry).value));
    forall i | 0 <= i < |batch|
      ensures exists j :: IsLastFor(rows, Year1Entry, j, batch[i].postId) && Year1Entry(rows[j]) == Success((batch[i].postId, batch[i].end))
    {
      Year1TupleFromLastRow(rows, i);
    }
  }

  lemma Year1TupleFromLastRow(rows: seq<Row>, i: nat)
    requires RowEntries(rows, Year1Entry).Success?
    requires i < |AssignAll(RowEntries(rows, Year1Entry).value)|
    ensures var batch := Year1Batch(AssignAll(RowEntries(rows, Year1Entry).value));
            exists j :: IsLastFor(rows, Year1Entry, j, batch[i].postId) && Year1Entry(rows[j]) == Success((batch[i].postId, batch[i].end))
  {
    var values := AssignAll(RowEntries(rows, Year1Entry).value);
    var batch := Year1Batch(values);
    assert values[i] == (batch[i].postId, batch[i].end);
    ValueFromLastRow(rows, Year1Entry, i);
  }

  // ----- the jobs -----

  /** How a repair job ended, the join statement it sent to the
      collaborations database (if it got that far), the ids it printed as
      unmatched (NULL repair only) and the tuples it handed to
      `executemany`. */
  datatype Run = Run(outcome: Result<(), DbError>, joinQuery: Option<string>,
                     unmatched: Option<seq<string>>, batch: Option<seq<UpdateRow>>)

  /** `posts_cnx.executemany(...)`: `PostConnector` has no such attribute. */
  const NoExecutemany := NoAttribute(SrcPosts.Owner, "executemany")

  /** `fix_reporting_dates_null(collabs_cnx, posts_cnx)` on connectors whose
      `cnx` fields are given. */
  function NullJob(collabsCnx: Option<Connection>, postsCnx: Option<Connection>, collabs: Server, posts: Server): (r: Run)
    ensures r.unmatched.Some? ==> r.joinQuery.Some?
    ensures r.batch.Some? ==> r.unmatched.Some? && r.outcome == Failure(NoExecutemany)
  {
    match FetchAll(postsCnx, SrcPosts.Owner, posts, Statement(Queries.NullPostsSql, None))
    case Failure(e) => Run(Failure(e), None, None, None)
    case Success(rows) =>
      if |rows| == 0 then Run(Success(()), None, None, None)
      else NullJoin(rows, collabsCnx, collabs)
  }

  /** The NULL repair once the posts are known: the join on their ids. From
      here on the job cannot end normally; a run that builds its tuples
      fails on the missing `executemany`. */
  function NullJoin(rows: seq<Row>, collabsCnx: Option<Connection>, collabs: Server): (r: Run)
    ensures r.outcome.Failure?
    ensures r.unmatched.Some? ==> r.joinQuery.Some?
    ensures r.batch.Some? ==> r.unmatched.Some? && r.outcome == Failure(NoExecutemany)
  {
    match Column(rows, "id")
    case Failure(e) => Run(Failure(e), None, None, None)
    case Success(ids) =>
      var query := Queries.JoinQuery(IdList(ids));
      match FetchAll(collabsCnx, SrcCollabs.Owner, collabs, Statement(query, None))
      case Failure(e) => Run(Failure(e), Some(query), None, None)
      case Success(obligations) => NullWrite(query, IdList(ids), obligations)
  }

  /** The NULL repair once the obligations are known: the printed
      difference, the `values` loop and the write. */
  function NullWrite(query: string, postIds: string, obligations: seq<Row>): (r: Run)
    ensures r.outcome.Failure? && r.joinQuery == Some(query)
    ensures r.batch.Some? ==> r.unmatched.Some? && r.outcome == Failure(NoExecutemany)
    ensures r.unmatched.Some? <==> Column(obligations, "post_id").Success?
  {
    match Column(obligations, "post_id")
    case Failure(e) => Run(Failure(e), Some(query), None, None)
    case Success(oblIds) =>
      var unmatched := Diff(Split(IdList(oblIds), ','), Split(postIds, ','));
      match RowEntries(obligations, NullEntry)
      case Failure(e) => Run(Failure(e), Some(query), Some(unmatched), None)
      case Success(es) => Run(Failure(NoExecutemany), Some(query), Some(unmatched), Some(NullBatch(AssignAll(es))))
  }

  /** `fix_reporting_dates_0001(collabs_cnx, posts_cnx)`. */
  function Year1Job(collabsCnx: Option<Connection>, postsCnx: Option<Connection>, collabs: Server, posts: Server): (r: Run)
    ensures r.unmatched.None?
    ensures r.batch.Some? ==> r.joinQuery.Some? && r.outcome == Failure(NoExecutemany)
  {
    match FetchAll(postsCnx, SrcPosts.Owner, posts, Statement(Queries.PostsEndingInYear1Sql, None))
    case Failure(e) => Run(Failure(e), None, None, None)
    case Success(rows) =>
      if |rows| == 0 then Run(Success(()), None, None, None)
      else Year1Join(rows, collabsCnx, collabs)
  }

  /** The 0001 repair once the posts are known: it prints no difference and,
      like the NULL repair, cannot end normally from here on. */
  function Year1Join(rows: seq<Row>, collabsCnx: Option<Connection>, collabs: Server): (r: Run)
    ensures r.outcome.Failure? && r.unmatched.None?
    ensures r.batch.Some? ==> r.joinQuery.Some? && r.outcome == Failure(NoExecutemany)
  {
    match Column(rows, "id")
    case Failure(e) => Run(Failure(e), None, None, None)
    case Success(ids) =>
      var query := Queries.JoinQuery(IdList(ids));
      match FetchAll(collabsCnx, SrcCollabs.Owner, collabs, Statement(query, None))
      case Failure(e) => Run(Failure(e), Some(query), None, None)
      case Success(campaigns) =>
        match RowEntries(campaigns, Year1Entry)
        case Failure(e) => Run(Failure(e), Some(query), None, None)
        case Success(es) => Run(Failure(NoExecutemany), Some(query), None, Some(Year1Batch(AssignAll(es))))
  }

  /** A repair job ends normally only when the posts query finds nothing;
      every run that gets as far as the write fails on the missing
      `executemany`, so no update is ever sent. */
  lemma JobsSucceedOnlyWhenNothingToDo(collabsCnx: Option<Connection>, postsCnx: Option<Connection>, collabs: Server, posts: Server)
    ensures NullJob(collabsCnx, postsCnx, collabs, posts).outcome.Success?
        <==> FetchAll(postsCnx, SrcPosts.Owner, posts, Statement(Queries.NullPostsSql, None)) == Success([])
    ensures Year1Job(collabsCnx, postsCnx, collabs, posts).outcome.Success?
        <==> FetchAll(postsCnx, SrcPosts.Owner, posts, Statement(Queries.PostsEndingInYear1Sql, None)) == Success([])
    ensures NullJob(collabsCnx, postsCnx, collabs, posts).batch.Some? ==>
              NullJob(collabsCnx, postsCnx, collabs, posts).outcome == Failure(NoExecutemany)
    ensures Year1Job(collabsCnx, postsCnx, collabs, posts).batch.Some? ==>
              Year1Job(collabsCnx, postsCnx, collabs, posts).outcome == Failure(NoExecutemany)
  {
  }

  /** Without posts to repair, the collaborations database is never
      queried; a join statement is sent only for a non-empty post list. */
  lemma EmptyPostsSkipCollabs(collabsCnx: Option<Connection>, postsCnx: Option<Connection>, collabs: Server, posts: Server)
    ensures FetchAll(postsCnx, SrcPosts.Owner, posts, Statement(Queries.NullPostsSql, None)) == Success([]) ==>
              NullJob(collabsCnx, postsCnx, collabs, posts) == Run(Success(()), None, None, None)
    ensures FetchAll(postsCnx, SrcPosts.Owner, posts, Statement(Queries.PostsEndingInYear1Sql, None)) == Success([]) ==>
              Year1Job(collabsCnx, postsCnx, collabs, posts) == Run(Success(()), None, None, None)
    ensures NullJob(collabsCnx, postsCnx, collabs, posts).joinQuery.Some? ==>
              var found := FetchAll(postsCnx, SrcPosts.Owner, posts, Statement(Queries.NullPostsSql, None));
              found.Success? && found.value != []
    ensures Year1Job(collabsCnx, postsCnx, collabs, posts).joinQuery.Some? ==>
              var found := FetchAll(postsCnx, SrcPosts.Owner, posts, Statement(Queries.PostsEndingInYear1Sql, None));
              found.Success? && found.value != []
  {
  }

  /** Once posts have come back, the NULL repair goes on to the join with
      exactly those rows. */
  lemma NullJobJoins(collabsCnx: Option<Connection>, postsCnx: Option<Connection>, collabs: Server, posts: Server, rows: seq<Row>)
    requires FetchAll(postsCnx, SrcPosts.Owner, posts, Statement(Queries.NullPostsSql, None)) == Success(rows)
    requires |rows| > 0
    ensures NullJob(collabsCnx, postsCnx, collabs, posts) == NullJoin(rows, collabsCnx, collabs)
  {
  }

  /** When no post id is written with a newline or a tab (integer ids never
      are), the join statement is the cleaned join text with the posts' id
      list spliced in unchanged (`IdListSplits` says what that list holds). */
  lemma NullJoinQueriesThePosts(rows: seq<Row>, collabsCnx: Option<Connection>, collabs: Server)
    requires Column(rows, "id").Success? && LineFree(Column(rows, "id").value)
    ensures NullJoin(rows, collabsCnx, collabs).joinQuery
         == Some(Queries.Clean(Queries.JoinPrefix) + IdList(Column(rows, "id").value) + Queries.Clean(Queries.JoinSuffix))
  {
    JoinQueryOfIds(Column(rows, "id").value);
  }

  /** Once the join has returned its obligations, the rest of the NULL
      repair works on those rows alone. */
  lemma NullJobWrites(collabsCnx: Option<Connection>, postsCnx: Option<Connection>, collabs: Server, posts: Server,
                      rows: seq<Row>, obligations: seq<Row>)
    requires FetchAll(postsCnx, SrcPosts.Owner, posts, Statement(Queries.NullPostsSql, None)) == Success(rows)
    requires |rows| > 0 && Column(rows, "id").Success?
    requires FetchAll(collabsCnx, SrcCollabs.Owner, collabs, Statement(Queries.JoinQuery(IdList(Column(rows, "id").value)), None))
          == Success(obligations)
    ensures NullJob(collabsCnx, postsCnx, collabs, posts)
         == NullWrite(Queries.JoinQuery(IdList(Column(rows, "id").value)), IdList(Column(rows, "id").value), obligations)
  {
    NullJobJoins(collabsCnx, postsCnx, collabs, posts, rows);
  }


  /** When no id on either side is written with a comma (integer ids never
      are), the printed difference is exactly the quoted ids found on one
      side only; with no obligations at all it also holds one empty text,
      because splitting the empty text gives `[""]`. */
  lemma UnmatchedIds(postIds: seq<Value>, oblIds: seq<Value>)
    requires |postIds| >= 1 && CommaFree(postIds) && CommaFree(oblIds)
    ensures |oblIds| >= 1 ==>
              Diff(Split(IdList(oblIds), ','), Split(IdList(postIds), ','))
              == Diff(QuoteAll(StrAll(oblIds)), QuoteAll(StrAll(postIds)))
    ensures oblIds == [] ==> "" in Diff(Split(IdList(oblIds), ','), Split(IdList(postIds), ','))
  {
    IdListSplits(postIds);
    if |oblIds| >= 1 {
      IdListSplits(oblIds);
    } else {
      QuoteJoinEmpty();
      assert StrAll(oblIds) == [];
      forall i | 0 <= i < |postIds| ensures QuoteAll(StrAll(postIds))[i] != "" {
        assert |QuoteAll(StrAll(postIds))[i]| >= 2;
      }
    }
  }

  /** The tuples of a NULL repair come from the obligations the join
      statement returned. */
  lemma NullJobBatch(collabsCnx: Option<Connection>, postsCnx: Option<Connection>, collabs: Server, posts: Server)
    requires NullJob(collabsCnx, postsCnx, collabs, posts).batch.Some?
    ensures var run := NullJob(collabsCnx, postsCnx, collabs, posts);
            && run.joinQuery.Some?
            && FetchAll(collabsCnx, SrcCollabs.Owner, collabs, Statement(run.joinQuery.value, None)).Success?
            && var obligations := FetchAll(collabsCnx, SrcCollabs.Owner, collabs, Statement(run.joinQuery.value, None)).value;
               && RowEntries(obligations, NullEntry).Success?
               && run.batch == Some(NullBatch(AssignAll(RowEntries(obligations, NullEntry).value)))
  {
    var rows := FetchAll(postsCnx, SrcPosts.Owner, posts, Statement(Queries.NullPostsSql, None)).value;
    var ids := Column(rows, "id").value;
    var query := Queries.JoinQuery(IdList(ids));
    var obligations := FetchAll(collabsCnx, SrcCollabs.Owner, collabs, Statement(query, None)).value;
    assert NullJob(collabsCnx, postsCnx, collabs, posts) == NullWrite(query, IdList(ids), obligations);
  }

  /** The tuples of a 0001 repair come from the campaigns the join statement
      returned. */
  lemma Year1JobBatch(collabsCnx: Option<Connection>, postsCnx: Option<Connection>, collabs: Server, posts: Server)
    requires Year1Job(collabsCnx, postsCnx, collabs, posts).batch.Some?
    ensures var run := Year1Job(collabsCnx, postsCnx, collabs, posts);
            && run.joinQuery.Some?
            && FetchAll(collabsCnx, SrcCollabs.Owner, collabs, Statement(run.joinQuery.value, None)).Success?
            && var campaigns := FetchAll(collabsCnx, SrcCollabs.Owner, collabs, Statement(run.joinQuery.value, None)).value;
               && RowEntries(campaigns, Year1Entry).Success?
               && run.batch == Some(Year1Batch(AssignAll(RowEntries(campaigns, Year1Entry).value)))
  {
  }

  const Post7: Row := map["id" := Int(7)]

  const Obligation7: Row := map[
    "post_id" := Int(7),
    "start_date" := Timestamp(CivilTime.DateTime(CivilTime.Date(2020, 9, 1), 0)),
    "end_date" := Timestamp(CivilTime.DateTime(CivilTime.Date(2021, 1, 1), 0))]

  lemma Obligation7Entry()
    ensures NullEntry(Obligation7) == Success((Int(7), ("2020-10-13 00:00:00", "2021-02-12 00:00:00")))
  {
    CivilTime.SixWeeksAfterNewYear2021();
    CivilTime.SixWeeksAfterSeptember2020();
  }

  lemma Post7Ids()
    ensures Column([Post7], "id") == Success([Int(7)])
    ensures IdList([Int(7)]) == "\"7\""
    ensures Column([Obligation7], "post_id") == Success([Int(7)])
    ensures Diff(Split("\"7\"", ','), Split("\"7\"", ',')) == []
  {
    ColumnOne(Post7, "id");
    ColumnOne(Obligation7, "post_id");
    assert StrAll([Int(7)]) == ["7"] by {
      assert Decimal(7) == "7";
    }
    assert QuoteAll(["7"]) == ["\"7\""] by {
      assert QuoteAll(["7"])[0] == Quote("7") == "\"7\"";
    }
    assert Split("\"7\"", ',') == ["\"7\""] by {
      SplitWhole("\"7\"", ',');
    }
    DiffSelf(["\"7\""]);
  }

  lemma RowEntriesOne<E>(o: Row, f: Row -> Result<(Value, E), DbError>)
    ensures f(o).Success? ==> RowEntries([o], f) == Success([f(o).value])
  {
    assert [o][..0] == [];
    assert RowEntries([o][..0], f) == Success([]);
    if f(o).Success? {
      assert [] + [f(o).value] == [f(o).value];
    }
  }

  /** One obligation row that can be shifted yields one tuple. */
  lemma NullWriteOne(query: string, postIds: string, o: Row)
    requires NullEntry(o).Success?
    ensures "post_id" in o
    ensures var e := NullEntry(o).value;
            NullWrite(query, postIds, [o])
            == Run(Failure(NoExecutemany), Some(query), Some(Diff(Split(IdList([o["post_id"]]), ','), Split(postIds, ','))),
                   Some([BothDates(e.1.0, e.1.1, e.0)]))
  {
    var e := NullEntry(o).value;
    assert "post_id" in o && e.0 == o["post_id"] by {
      NullEntryShifts(o);
    }
    ColumnOne(o, "post_id");
    assert RowEntries([o], NullEntry) == Success([e]) by {
      RowEntriesOne(o, NullEntry);
    }
    assert NullBatch(AssignAll([e])) == [BothDates(e.1.0, e.1.1, e.0)] by {
      AssignAllOne(e);
    }
  }

  /** The worked example: one post 7 with one obligation running from
      2020-09-01 to 2021-01-01 gives the tuple
      ("2020-10-13 00:00:00", "2021-02-12 00:00:00", 7), which is then lost
      to the missing `executemany`. */
  lemma NullJobExample(pc: Connection, cc: Connection, collabs: Server, posts: Server)
    requires posts(pc, Statement(Queries.NullPostsSql, None)) == Answered(Some([Post7]))
    requires collabs(cc, Statement(Queries.JoinQuery("\"7\""), None)) == Answered(Some([Obligation7]))
    ensures NullJob(Some(cc), Some(pc), collabs, posts)
         == Run(Failure(NoExecutemany), Some(Queries.JoinQuery("\"7\"")), Some([]),
                Some([BothDates("2020-10-13 00:00:00", "2021-02-12 00:00:00", Int(7))]))
  {
    Post7Ids();
    Obligation7Entry();
    NullWriteOne(Queries.JoinQuery("\"7\""), "\"7\"", Obligation7);
    assert NullJob(Some(cc), Some(pc), collabs, posts) == NullJoin([Post7], Some(cc), collabs);
  }

  /** `fix_reporting_dates_null(collabs_cnx, posts_cnx)`. */
  method FixReportingDatesNull(collabsCnx: SrcCollabs.CollabsConnector, postsCnx: SrcPosts.PostConnector, collabs: Server, posts: Server)
    returns (run: Run)
    ensures run == NullJob(collabsCnx.cnx, postsCnx.cnx, collabs, posts)
  {
    var found := postsCnx.Execute(posts, Queries.NullPostsSql, None);
    if found.Failure? {
      return Run(Failure(found.error), None, None, None);
    }
    var rows := found.value;
    if |rows| == 0 {
      return Run(Success(()), None, None, None);
    }
    var ids := Column(rows, "id");
    if ids.Failure? {
      return Run(Failure(ids.error), None, None, None);
    }
    var postIds := IdList(ids.value);
    var query := Queries.JoinQuery(postIds);
    var joined := collabsCnx.Execute(collabs, query, None);
    if joined.Failure? {
      return Run(Failure(joined.error), Some(query), None, None);
    }
    var obligations := joined.value;
    NullJobWrites(collabsCnx.cnx, postsCnx.cnx, collabs, posts, rows, obligations);
    var oblIds := Column(obligations, "post_id");
    if oblIds.Failure? {
      return Run(Failure(oblIds.error), Some(query), None, None);
    }
    var unmatched := Diff(Split(IdList(oblIds.value), ','), Split(postIds, ','));

    var values := NullValues(obligations);
    if values.Failure? {
      return Run(Failure(values.error), Some(query), Some(unmatched), None);
    }
    var vals := NullBatch(values.value);
    run := Run(Failure(NoExecutemany), Some(query), Some(unmatched), Some(vals));
  }

  /** The `values` loop of the NULL repair: each obligation's post id is
      mapped to its start and end dates six weeks later; the first row that
      raises ends the loop. */
  method NullValues(obligations: seq<Row>) returns (r: Result<Dict<Value, (string, string)>, DbError>)
    ensures r.Success? <==> RowEntries(obligations, NullEntry).Success?
    ensures r.Success? ==> r.value == AssignAll(RowEntries(obligations, NullEntry).value)
    ensures r.Failure? ==> r.error == RowEntries(obligations, NullEntry).error
  {
    var values: Dict<Value, (string, string)> := [];
    var i := 0;
    while i < |obligations|
      invariant 0 <= i <= |obligations|
      invariant RowEntries(obligations[..i], NullEntry).Success?
      invariant values == AssignAll(RowEntries(obligations[..i], NullEntry).value)
    {
      var o := obligations[i];
      RowEntriesSnoc(obligations, NullEntry, i);
      if "start_date" !in o {
        return Failure(KeyError("start_date"));
      }
      var start := ShiftSixWeeks(o["start_date"]);
      if start.Failure? {
        return Failure(start.error);
      }
      if "end_date" !in o {
        return Failure(KeyError("end_date"));
      }
      var end := ShiftSixWeeks(o["end_date"]);
      if end.Failure? {
        return Failure(end.error);
      }
      if "post_id" !in o {
        return Failure(KeyError("post_id"));
      }
      AssignAllSnoc(RowEntries(obligations[..i], NullEntry).value, (o["post_id"], (start.value, end.value)));
      values := Assign(values, o["post_id"], (start.value, end.value));
      i := i + 1;
    }
    assert obligations[..i] == obligations;
    r := Success(values);
  }

  /** `fix_reporting_dates_0001(collabs_cnx, posts_cnx)`. */
  method FixReportingDates0001(collabsCnx: SrcCollabs.CollabsConnector, postsCnx: SrcPosts.PostConnector, collabs: Server, posts: Server)
    returns (run: Run)
    ensures run == Year1Job(collabsCnx.cnx, postsCnx.cnx, collabs, posts)
  {
    var found := postsCnx.Execute(posts, Queries.PostsEndingInYear1Sql, None);
    if found.Failure? {
      return Run(Failure(found.error), None, None, None);
    }
    var rows := found.value;
    if |rows| == 0 {
      return Run(Success(()), None, None, None);
    }
    var ids := Column(rows, "id");
    if ids.Failure? {
      return Run(Failure(ids.error), None, None, None);
    }
    var query := Queries.JoinQuery(IdList(ids.value));
    var joined := collabsCnx.Execute(collabs, query, None);
    if joined.Failure? {
      return Run(Failure(joined.error), Some(query), None, None);
    }
    var campaigns := joined.value;
    assert Year1Job(collabsCnx.cnx, postsCnx.cnx, collabs, posts) == Year1Join(rows, collabsCnx.cnx, collabs);

    var values := Year1Values(campaigns);
    if values.Failure? {
      return Run(Failure(values.error), Some(query), None, None);
    }
    var vals := Year1Batch(values.value);
    run := Run(Failure(NoExecutemany), Some(query), None, Some(vals));
  }

  /** The `values` loop of the 0001 repair: each campaign's post id is
      mapped to its end date six weeks later. */
  method Year1Values(campaigns: seq<Row>) returns (r: Result<Dict<Value, string>, DbError>)
    ensures r.Success? <==> RowEntries(campaigns, Year1Entry).Success?
    ensures r.Success? ==> r.value == AssignAll(RowEntries(campaigns, Year1Entry).value)
    ensures r.Failure? ==> r.error == RowEntries(campaigns, Year1Entry).error
  {
    var values: Dict<Value, string> := [];
    var i := 0;
    while i < |campaigns|
      invariant 0 <= i <= |campaigns|
      invariant RowEntries(campaigns[..i], Year1Entry).Success?
      invariant values == AssignAll(RowEntries(campaigns[..i], Year1Entry).value)
    {
      var c := campaigns[i];
      RowEntriesSnoc(campaigns, Year1Entry, i);
      if "end_date" !in c {
        return Failure(KeyError("end_date"));
      }
      var end := ShiftSixWeeks(c["end_date"]);
      if end.Failure? {
        return Failure(end.error);
      }
      if "post_id" !in c {
        return Failure(KeyError("post_id"));
      }
      AssignAllSnoc(RowEntries(campaigns[..i], Year1Entry).value, (c["post_id"], end.value));
      values := Assign(values, c["post_id"], end.value);
      i := i + 1;
    }
    assert campaigns[..i] == campaigns;
    r := Success(values);
  }

  // ----- main -----

  /** How `main`'s `try` block ends: both connectors are built from the same
      configuration, then the NULL repair runs. */
  function MainOutcome(cfg: Option<Kwargs>, env: Environment, driver: Driver, collabs: Server, posts: Server): (r: Result<(), DbError>)
    ensures Establish(SrcCollabs.ConnectPlan(cfg, env), driver).Failure? ==>
              r == Failure(Establish(SrcCollabs.ConnectPlan(cfg, env), driver).error)
    ensures r.Success? ==> Establish(SrcPosts.ConnectPlan(cfg, env), driver).Success?
  {
    var collabsPlan := SrcCollabs.ConnectPlan(cfg, env);
    var postsPlan := SrcPosts.ConnectPlan(cfg, env);
    match Establish(collabsPlan, driver)
    case Failure(e) => Failure(e)
    case Success(_) =>
      match Establish(postsPlan, driver)
      case Failure(e) => Failure(e)
      case Success(_) =>
        NullJob(StoredAfter(collabsPlan, driver, None), StoredAfter(postsPlan, driver, None), collabs, posts).outcome
  }

  /** The lines `main` prints: the error, if the `try` block raised, and
      then always "finished". */
  function MainLines(cfg: Option<Kwargs>, env: Environment, driver: Driver, collabs: Server, posts: Server): (lines: seq<string>)
    ensures |lines| >= 1 && lines[|lines| - 1] == "finished"
    ensures |lines| == 2 <==> MainOutcome(cfg, env, driver, collabs, posts).Failure?
    ensures |lines| == 2 ==> lines[0] == "error in main loop " + Message(MainOutcome(cfg, env, driver, collabs, posts).error)
  {
    match MainOutcome(cfg, env, driver, collabs, posts)
    case Failure(e) => ["error in main loop " + Message(e), "finished"]
    case Success(_) => ["finished"]
  }

  /** Without a configuration file the job cannot get past its first query:
      the connectors fall back to the environment, which leaves the posts
      connector without `cnx`. */
  lemma NoConfigNeverRuns(env: Environment, driver: Driver, collabs: Server, posts: Server)
    ensures MainOutcome(None, env, driver, collabs, posts).Failure?
    ensures var e := MainOutcome(None, env, driver, collabs, posts).error;
            e == MissingEnvironment || e.DriverError? || e == NoAttribute(SrcPosts.Owner, "cnx")
  {
    SrcCollabs.EnvironmentConnectionIsLost(env, driver, None);
    SrcPosts.EnvironmentConnectionIsLost(env, driver, None);
  }

  /** `main` prints only "finished" exactly when both connectors connect and
      the posts query finds nothing to repair. */
  lemma MainQuietOnlyWithoutWork(cfg: Option<Kwargs>, env: Environment, driver: Driver, collabs: Server, posts: Server)
    ensures MainLines(cfg, env, driver, collabs, posts) == ["finished"] <==>
              && Establish(SrcCollabs.ConnectPlan(cfg, env), driver).Success?
              && Establish(SrcPosts.ConnectPlan(cfg, env), driver).Success?
              && FetchAll(StoredAfter(SrcPosts.ConnectPlan(cfg, env), driver, None), SrcPosts.Owner, posts,
                          Statement(Queries.NullPostsSql, None)) == Success([])
  {
    var postsCnx := StoredAfter(SrcPosts.ConnectPlan(cfg, env), driver, None);
    JobsSucceedOnlyWhenNothingToDo(StoredAfter(SrcCollabs.ConnectPlan(cfg, env), driver, None), postsCnx, collabs, posts);
  }

  /** `main()` once the configuration file, if any, has been read into
      `cfg`. */
  method RunRepair(cfg: Option<Kwargs>, env: Environment, driver: Driver, collabs: Server, posts: Server)
    returns (lines: seq<string>)
    ensures lines == MainLines(cfg, env, driver, collabs, posts)
  {
    var outcome: Result<(), DbError>;
    var collabsCnx := SrcCollabs.CollabsConnector.Open(cfg, env, driver);
    if collabsCnx.Failure? {
      outcome := Failure(collabsCnx.error);
    } else {
      var postsCnx := SrcPosts.PostConnector.Open(cfg, env, driver);
      if postsCnx.Failure? {
        outcome := Failure(postsCnx.error);
      } else {
        var run := FixReportingDatesNull(collabsCnx.value, postsCnx.value, collabs, posts);
        outcome := run.outcome;
      }
    }
    lines := [];
    if outcome.Failure? {
      lines := lines + ["error in main loop " + Message(outcome.error)];
    }
    lines := lines + ["finished"];
  }
}
