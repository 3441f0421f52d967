/**
 * The downloaded price history and its cleaning: the validity gate, the
 * missing-value drop and the duplicate-date drop that turn the market-data
 * frame into the table the forecasting model is fitted on.
 */
module Series {
  import opened Basics

  /** A calendar date, as a day number since an epoch. */
  type Day = int

  /** An exchange rate. */
  type Rate = real

  /** One downloaded row: its Date and Close cells, either of which may be missing. */
  datatype RawRow = RawRow(date: Option<Day>, close: Option<Rate>)

  /** The frame the download returns: whether it has a Close column, and its rows. */
  datatype Frame = Frame(hasClose: bool, rows: seq<RawRow>)

  /** A row of the training table: the date `ds` and the observed rate `y`. */
  datatype Row = Row(ds: Day, y: Rate)

  /** The gate: an empty frame, no Close column, or a Close column with no value at all. */
  predicate Unusable(f: Frame) {
    |f.rows| == 0 || !f.hasClose || forall i :: 0 <= i < |f.rows| ==> f.rows[i].close.None?
  }

  /** The raw row that a training-table row comes from when no cell is missing. */
  function Complete(r: Row): RawRow {
    RawRow(Some(r.ds), Some(r.y))
  }

  /** Drops every row with a missing Date or Close, keeping the order of the others. */
  function DropMissing(rows: seq<RawRow>): (r: seq<Row>)
    ensures |r| <= |rows|
  {
    if rows == [] then []
    else
      var rest := DropMissing(rows[1..]);
      match rows[0]
      case RawRow(Some(d), Some(y)) => [Row(d, y)] + rest
      case _ => rest
  }

  /** The set of dates a table mentions. */
  function Dates(s: seq<Row>): set<Day> {
    set r | r in s :: r.ds
  }

  /** No two rows of the table share a date. */
  predicate DistinctDates(s: seq<Row>) {
    forall i, j :: 0 <= i < j < |s| ==> s[i].ds != s[j].ds
  }

  /** The position of the first row of `s` dated `d`. */
  function FirstIndex(s: seq<Row>, d: Day): (i: nat)
    requires d in Dates(s)
    ensures i < |s| && s[i].ds == d
    ensures forall k :: 0 <= k < i ==> s[k].ds != d
  {
    if s[0].ds == d then 0
    else
      assert d in Dates(s[1..]) by {
        var r :| r in s && r.ds == d;
        assert s == [s[0]] + s[1..];
      }
      1 + FirstIndex(s[1..], d)
  }

  /**
   * Drops every row whose date is in `seen` or was met earlier in `s`:
   * for each date the first row is kept.
   */
  function DropDuplicateDates(s: seq<Row>, seen: set<Day>): seq<Row>
    decreases |s|
  {
    if s == [] then []
    else if s[0].ds in seen then DropDuplicateDates(s[1..], seen)
    else [s[0]] + DropDuplicateDates(s[1..], seen + {s[0].ds})
  }

  /** The rows of `out` come in the order in which their dates first appear in `s`. */
  predicate FirstOrdered(out: seq<Row>, s: seq<Row>) {
    forall i, j :: 0 <= i < j < |out| ==>
      out[i].ds in Dates(s) && out[j].ds in Dates(s) && FirstIndex(s, out[i].ds) < FirstIndex(s, out[j].ds)
  }

  /** The training table: missing values dropped first, then duplicate dates. */
  function Clean(rows: seq<RawRow>): seq<Row> {
    DropDuplicateDates(DropMissing(rows), {})
  }

  // ---------------------------------------------------------------------------
  // The missing-value drop
  // ---------------------------------------------------------------------------

  /** A row survives the drop exactly when the download holds it with both cells present. */
  lemma {:induction false} DropMissingMember(rows: seq<RawRow>, r: Row)
    ensures r in DropMissing(rows) <==> Complete(r) in rows
  {
    if rows != [] {
      DropMissingMember(rows[1..], r);
      assert rows == [rows[0]] + rows[1..];
    }
  }

  /** The drop works row by row, so it keeps the order of the download. */
  lemma {:induction false} DropMissingAppend(a: seq<RawRow>, b: seq<RawRow>)
    ensures DropMissing(a + b) == DropMissing(a) + DropMissing(b)
  {
    if a == [] {
      assert a + b == b;
    } else {
      assert (a + b)[0] == a[0];
      assert (a + b)[1..] == a[1..] + b;
      DropMissingAppend(a[1..], b);
    }
  }

  // ---------------------------------------------------------------------------
  // The duplicate-date drop
  // ---------------------------------------------------------------------------

  /** Every date of the input that was not already seen stays, and no other. */
  lemma {:induction false} DropDuplicatesDates(s: seq<Row>, seen: set<Day>)
    ensures Dates(DropDuplicateDates(s, seen)) == Dates(s) - seen
  {
    if s != [] {
      assert Dates(s) == {s[0].ds} + Dates(s[1..]) by {
        assert s == [s[0]] + s[1..];
      }
      if s[0].ds in seen {
        DropDuplicatesDates(s[1..], seen);
      } else {
        var tail := DropDuplicateDates(s[1..], seen + {s[0].ds});
        DropDuplicatesDates(s[1..], seen + {s[0].ds});
        assert Dates([s[0]] + tail) == {s[0].ds} + Dates(tail);
      }
    }
  }

  /** The kept rows carry distinct dates, none of them already seen. */
  lemma {:induction false} DropDuplicatesDistinct(s: seq<Row>, seen: set<Day>)
    ensures DistinctDates(DropDuplicateDates(s, seen))
    ensures forall r :: r in DropDuplicateDates(s, seen) ==> r.ds !in seen
  {
    if s != [] {
      if s[0].ds in seen {
        DropDuplicatesDistinct(s[1..], seen);
      } else {
        var tail := DropDuplicateDates(s[1..], seen + {s[0].ds});
        DropDuplicatesDistinct(s[1..], seen + {s[0].ds});
        var out := [s[0]] + tail;
        forall i, j | 0 <= i < j < |out| ensures out[i].ds != out[j].ds {
          if i == 0 {
            assert out[j] in tail;
          } else {
            assert out[i] == tail[i - 1] && out[j] == tail[j - 1];
          }
        }
      }
    }
  }

  /** The kept rows appear in the input, in the same order. */
  lemma {:induction false} DropDuplicatesSubsequence(s: seq<Row>, seen: set<Day>)
    ensures Subsequence(DropDuplicateDates(s, seen), s)
  {
    if s != [] {
      if s[0].ds in seen {
        DropDuplicatesSubsequence(s[1..], seen);
      } else {
        DropDuplicatesSubsequence(s[1..], seen + {s[0].ds});
        var out := [s[0]] + DropDuplicateDates(s[1..], seen + {s[0].ds});
        assert out[0] == s[0] && out[1..] == DropDuplicateDates(s[1..], seen + {s[0].ds});
      }
    }
  }

  /** A date missing from the first row is found first where the rest first has it. */
  lemma FirstIndexTail(s: seq<Row>, d: Day)
    requires s != [] && s[0].ds != d && d in Dates(s[1..])
    ensures d in Dates(s) && FirstIndex(s, d) == 1 + FirstIndex(s[1..], d)
  {
    var r :| r in s[1..] && r.ds == d;
    assert r in s;
  }

  /** Each kept row is the first row of the input with its date. */
  lemma {:induction false} DropDuplicatesKeepsFirst(s: seq<Row>, seen: set<Day>)
    ensures forall r :: r in DropDuplicateDates(s, seen) ==>
              r.ds in Dates(s) && r == s[FirstIndex(s, r.ds)]
  {
    if s != [] {
      var next := if s[0].ds in seen then seen else seen + {s[0].ds};
      var tail := DropDuplicateDates(s[1..], next);
      assert DropDuplicateDates(s, seen) == if s[0].ds in seen then tail else [s[0]] + tail;
      DropDuplicatesKeepsFirst(s[1..], next);
      DropDuplicatesDistinct(s[1..], next);
      forall r | r in DropDuplicateDates(s, seen)
        ensures r.ds in Dates(s) && r == s[FirstIndex(s, r.ds)]
      {
        if r in tail {
          FirstIndexTail(s, r.ds);
        } else {
          assert r == s[0];
        }
      }
    }
  }

  /**
   * Rows ordered by first appearance in the rest of `s`, none dated as its
   * first row, stay ordered in `s`, and so does the same rows behind that first row.
   */
  lemma FirstOrderedCons(out: seq<Row>, s: seq<Row>)
    requires s != [] && FirstOrdered(out, s[1..])
    requires forall r :: r in out ==> r.ds in Dates(s[1..]) && r.ds != s[0].ds
    ensures FirstOrdered(out, s)
    ensures FirstOrdered([s[0]] + out, s)
  {
    forall r | r in out ensures r.ds in Dates(s) && FirstIndex(s, r.ds) == 1 + FirstIndex(s[1..], r.ds) {
      FirstIndexTail(s, r.ds);
    }
    assert s[0].ds in Dates(s) && FirstIndex(s, s[0].ds) == 0;
    var full := [s[0]] + out;
    forall i, j | 0 <= i < j < |full|
      ensures full[i].ds in Dates(s) && full[j].ds in Dates(s) && FirstIndex(s, full[i].ds) < FirstIndex(s, full[j].ds)
    {
      assert full[j] == out[j - 1];
      if i > 0 {
        assert full[i] == out[i - 1];
      }
    }
    forall i, j | 0 <= i < j < |out|
      ensures out[i].ds in Dates(s) && out[j].ds in Dates(s) && FirstIndex(s, out[i].ds) < FirstIndex(s, out[j].ds)
    {
      assert out[i] in out && out[j] in out;
    }
  }

  /** The kept rows come in the order in which their dates first appear in the input. */
  lemma {:induction false} DropDuplicatesFirstOrder(s: seq<Row>, seen: set<Day>)
    ensures FirstOrdered(DropDuplicateDates(s, seen), s)
  {
    if s != [] {
      var next := if s[0].ds in seen then seen else seen + {s[0].ds};
      var tail := DropDuplicateDates(s[1..], next);
      DropDuplicatesFirstOrder(s[1..], next);
      DropDuplicatesDistinct(s[1..], next);
      DropDuplicatesDates(s[1..], next);
      forall r | r in tail ensures r.ds in Dates(s[1..]) && r.ds != s[0].ds {
        assert r.ds in Dates(tail);
      }
      FirstOrderedCons(tail, s);
    }
  }

  // ---------------------------------------------------------------------------
  // The whole cleaning step
  // ---------------------------------------------------------------------------

  /**
   * The training table has no two rows on one date, and every row of it is a
   * download row with both cells present.
   */
  lemma CleanWellFormed(rows: seq<RawRow>)
    ensures DistinctDates(Clean(rows))
    ensures forall r :: r in Clean(rows) ==> Complete(r) in rows
  {
    DropDuplicatesDistinct(DropMissing(rows), {});
    DropDuplicatesSubsequence(DropMissing(rows), {});
    forall r | r in Clean(rows) ensures Complete(r) in rows {
      SubsequenceMember(Clean(rows), DropMissing(rows), r);
      DropMissingMember(rows, r);
    }
  }

  /**
   * Cleaning keeps order and, because missing values are dropped before
   * duplicates, keeps for each date its first COMPLETE row; it loses a date
   * only when no complete row carries it.
   */
  lemma CleanKeepsFirstComplete(rows: seq<RawRow>)
    ensures Subsequence(Clean(rows), DropMissing(rows))
    ensures Dates(Clean(rows)) == Dates(DropMissing(rows))
    ensures forall r :: r in Clean(rows) ==>
              r.ds in Dates(DropMissing(rows)) && r == DropMissing(rows)[FirstIndex(DropMissing(rows), r.ds)]
    ensures FirstOrdered(Clean(rows), DropMissing(rows))
  {
    DropDuplicatesSubsequence(DropMissing(rows), {});
    DropDuplicatesDates(DropMissing(rows), {});
    DropDuplicatesKeepsFirst(DropMissing(rows), {});
    DropDuplicatesFirstOrder(DropMissing(rows), {});
  }

  /** Members of a subsequence are members of the sequence. */
  lemma {:induction false} SubsequenceMember<T>(a: seq<T>, b: seq<T>, x: T)
    requires Subsequence(a, b) && x in a
    ensures x in b
  {
    if a[0] == b[0] && Subsequence(a[1..], b[1..]) {
      if x != a[0] {
        SubsequenceMember(a[1..], b[1..], x);
      }
    } else {
      SubsequenceMember(a, b[1..], x);
    }
  }
}
