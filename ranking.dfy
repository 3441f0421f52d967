/**
 * Candidate selection: the forecast rows restricted to the dates after today
 * up to the travel date, ranked by predicted rate, highest first, and cut to
 * the first three.
 */
module Ranking {
  import opened Basics
  import opened Series
  import opened Clock

  /** One forecast row: a date at midnight and the predicted rate `yhat`. */
  datatype Point = Point(ds: Day, yhat: Rate)

  /** How many candidate days are reported. */
  const TOP_K: nat := 3

  /** The future mask: after today's midnight and at or before the travel date's midnight. */
  predicate InMask(ds: Day, now: Instant, travel: Day) {
    Midnight(ds) > Normalize(now) && Midnight(ds) <= Normalize(Midnight(travel))
  }

  /** The forecast rows the mask keeps, in forecast order. */
  function Window(points: seq<Point>, now: Instant, travel: Day): seq<Point> {
    if points == [] then []
    else if InMask(points[0].ds, now, travel) then [points[0]] + Window(points[1..], now, travel)
    else Window(points[1..], now, travel)
  }

  /** Predicted rates never rise along the sequence. */
  predicate NonIncreasing(s: seq<Point>) {
    forall i, j :: 0 <= i < j < |s| ==> s[i].yhat >= s[j].yhat
  }

  /** Places `p` in front of the first row it is not below. */
  function Insert(p: Point, s: seq<Point>): (r: seq<Point>)
    ensures multiset(r) == multiset(s) + multiset{p}
  {
    if s == [] || p.yhat >= s[0].yhat then [p] + s
    else
      assert s == [s[0]] + s[1..];
      [s[0]] + Insert(p, s[1..])
  }

  /** The rows ordered by predicted rate, highest first (`sort_values(ascending=False)`). */
  function SortDescending(s: seq<Point>): (r: seq<Point>)
    ensures multiset(r) == multiset(s)
    ensures NonIncreasing(r)
  {
    if s == [] then []
    else
      assert s == [s[0]] + s[1..];
      InsertSorted(s[0], SortDescending(s[1..]));
      Insert(s[0], SortDescending(s[1..]))
  }

  /** Inserting into a ranked sequence keeps it ranked. */
  lemma {:induction false} InsertSorted(p: Point, s: seq<Point>)
    requires NonIncreasing(s)
    ensures NonIncreasing(Insert(p, s))
  {
    if s != [] && p.yhat < s[0].yhat {
      var rest := Insert(p, s[1..]);
      InsertSorted(p, s[1..]);
      forall x | x in rest ensures x.yhat <= s[0].yhat {
        assert x in multiset(rest);
        if x != p {
          assert x in multiset(s[1..]);
          var k :| 0 <= k < |s[1..]| && s[1..][k] == x;
          assert s[k + 1] == x;
        }
      }
      var r := [s[0]] + rest;
      forall i, j | 0 <= i < j < |r| ensures r[i].yhat >= r[j].yhat {
        if i == 0 {
          assert r[j] in rest;
        } else {
          assert r[i] == rest[i - 1] && r[j] == rest[j - 1];
        }
      }
    }
  }

  /** The first `n` rows, or all of them when there are fewer (`head(n)`). */
  function Head(s: seq<Point>, n: nat): (r: seq<Point>)
    ensures |r| <= n && |r| <= |s| && r == s[..|r|]
    ensures |r| < n ==> r == s
  {
    s[..Min(n, |s|)]
  }

  /** The three best-ranked rows of the window. */
  function Top(window: seq<Point>): seq<Point> {
    Head(SortDescending(window), TOP_K)
  }

  // ---------------------------------------------------------------------------
  // The window
  // ---------------------------------------------------------------------------

  /** The mask, taken on midnights, compares dates: after today, up to the travel date. */
  lemma MaskIsDayWindow(ds: Day, now: Instant, travel: Day)
    ensures InMask(ds, now, travel) <==> Today(now) < ds <= travel
    ensures InMask(ds, now, travel) <==> 1 <= ds - Today(now) <= Horizon(now, travel)
  {
  }

  /** A row is in the window exactly when it is a forecast row the mask keeps. */
  lemma {:induction false} WindowMember(points: seq<Point>, now: Instant, travel: Day, p: Point)
    ensures p in Window(points, now, travel) <==> p in points && Today(now) < p.ds <= travel
  {
    MaskIsDayWindow(p.ds, now, travel);
    if points != [] {
      WindowMember(points[1..], now, travel, p);
      assert points == [points[0]] + points[1..];
    }
  }

  /** The window keeps the forecast's order. */
  lemma {:induction false} WindowSubsequence(points: seq<Point>, now: Instant, travel: Day)
    ensures Subsequence(Window(points, now, travel), points)
  {
    if points != [] {
      WindowSubsequence(points[1..], now, travel);
      if InMask(points[0].ds, now, travel) {
        var w := Window(points, now, travel);
        assert w[0] == points[0] && w[1..] == Window(points[1..], now, travel);
      }
    }
  }

  /** The mask is applied row by row: every copy of a row it keeps stays, in order. */
  lemma {:induction false} WindowAppend(a: seq<Point>, b: seq<Point>, now: Instant, travel: Day)
    ensures Window(a + b, now, travel) == Window(a, now, travel) + Window(b, now, travel)
  {
    if a == [] {
      assert a + b == b;
    } else {
      assert (a + b)[0] == a[0];
      assert (a + b)[1..] == a[1..] + b;
      WindowAppend(a[1..], b, now, travel);
    }
  }

  /** When the travel date is not after today, no row passes the mask. */
  lemma PastTravelEmptyWindow(points: seq<Point>, now: Instant, travel: Day)
    requires travel <= Today(now)
    ensures Window(points, now, travel) == []
  {
  }

  // ---------------------------------------------------------------------------
  // The top three
  // ---------------------------------------------------------------------------

  /** In a ranked sequence, nothing after the first `m` rows predicts more than any of them. */
  lemma RankedSplit(s: seq<Point>, m: nat)
    requires NonIncreasing(s) && m <= |s|
    ensures forall p, q :: p in s[m..] && q in s[..m] ==> p.yhat <= q.yhat
  {
  }

  /** The sort keeps every row, so the top has `min(3, |window|)` rows. */
  lemma TopLength(window: seq<Point>)
    ensures |Top(window)| == Min(TOP_K, |window|)
  {
    assert |SortDescending(window)| == |window| by {
      assert |multiset(SortDescending(window))| == |multiset(window)|;
    }
  }

  /** The top rows are a prefix of the ranking and the rest of it is what is left out. */
  lemma TopSplit(window: seq<Point>)
    ensures multiset(window) == multiset(Top(window)) + multiset(SortDescending(window)[|Top(window)|..])
  {
    var s := SortDescending(window);
    var top := Top(window);
    assert top == s[..|top|];
    assert s == top + s[|top|..];
  }

  /** No row left out of the window predicts more than a row returned. */
  lemma TopDominates(window: seq<Point>)
    ensures forall p, q :: p in multiset(window) - multiset(Top(window)) && q in Top(window) ==> p.yhat <= q.yhat
  {
    var s := SortDescending(window);
    var top := Top(window);
    var m := |top|;
    assert top == s[..m];
    TopSplit(window);
    assert multiset(window) - multiset(top) == multiset(s[m..]);
    RankedSplit(s, m);
    forall p, q | p in multiset(window) - multiset(top) && q in top ensures p.yhat <= q.yhat {
      assert p in s[m..];
    }
  }

  /**
   * The top rows: as many as three allows, drawn from the window, highest
   * first, and no row left out of the window predicts more than any row
   * returned.
   */
  lemma TopBest(window: seq<Point>)
    ensures |Top(window)| == Min(TOP_K, |window|)
    ensures multiset(Top(window)) <= multiset(window)
    ensures NonIncreasing(Top(window))
    ensures forall p, q :: p in multiset(window) - multiset(Top(window)) && q in Top(window) ==> p.yhat <= q.yhat
  {
    TopLength(window);
    TopSplit(window);
    TopDominates(window);
  }

  /** Every top row is a forecast row after today, up to the travel date. */
  lemma TopInWindow(points: seq<Point>, now: Instant, travel: Day)
    ensures forall x :: x in Top(Window(points, now, travel)) ==> x in points && Today(now) < x.ds <= travel
  {
    var window := Window(points, now, travel);
    TopBest(window);
    forall x | x in Top(window) ensures x in points && Today(now) < x.ds <= travel {
      assert x in multiset(Top(window));
      WindowMember(points, now, travel, x);
    }
  }
}
