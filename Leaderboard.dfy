/**
 * The leaderboard on the landing page: the stored results are loaded
 * (a store that cannot be reached gives no rows), ordered by score from
 * highest to lowest, and the first five are shown.
 */
module Leaderboard {

  /** A stored result, reduced to the two columns the leaderboard reads. */
  datatype Entry = Entry(name: string, score: int)

  /** What reading the results sheet yields: a failure or the stored rows. */
  datatype Store = Unreachable | Records(rows: seq<Entry>)

  /** The loaded rows: every failure of the store is caught and gives none. */
  function Load(store: Store): seq<Entry>
  {
    match store
    case Unreachable => []
    case Records(rows) => rows
  }

  /** Ordered by score, highest first. */
  predicate Descending(rows: seq<Entry>)
  {
    forall i, j :: 0 <= i < j < |rows| ==> rows[i].score >= rows[j].score
  }

  /** Place `e` into a descending list before the first row it outscores. */
  function Insert(e: Entry, rows: seq<Entry>): (r: seq<Entry>)
    requires Descending(rows)
    ensures Descending(r)
    ensures multiset(r) == multiset(rows) + multiset{e}
    ensures |r| == |rows| + 1 && (r[0] == e || (rows != [] && r[0] == rows[0]))
  {
    if rows == [] || e.score >= rows[0].score then
      [e] + rows
    else
      assert rows == [rows[0]] + rows[1..];
      var t := Insert(e, rows[1..]);
      assert forall j :: 0 <= j < |t| ==> rows[0].score >= t[0].score >= t[j].score;
      [rows[0]] + t
  }

  /** The rows ordered by score, highest first. */
  function SortByScore(rows: seq<Entry>): (r: seq<Entry>)
    ensures Descending(r)
    ensures multiset(r) == multiset(rows) && |r| == |rows|
  {
    if rows == [] then []
    else
      assert rows == [rows[0]] + rows[1..];
      Insert(rows[0], SortByScore(rows[1..]))
  }

  /** The first five rows, or all of them when there are fewer. */
  function Head(rows: seq<Entry>): seq<Entry>
  {
    if |rows| <= 5 then rows else rows[..5]
  }

  /** What the leaderboard panel shows: a notice that there is no data, or the cards. */
  datatype Panel = NoData | Cards(shown: seq<Entry>)

  /** The landing page's leaderboard panel. */
  function LeaderboardPanel(store: Store): Panel
  {
    var rows := Load(store);
    if rows == [] then NoData else Cards(Head(SortByScore(rows)))
  }

  /**
   * The first five of a descending list are descending, are taken from
   * it, and no row after them scores above any of them.
   */
  lemma HeadIsTop(sorted: seq<Entry>)
    requires Descending(sorted)
    ensures var shown := Head(sorted);
      && |shown| == (if |sorted| < 5 then |sorted| else 5)
      && Descending(shown)
      && multiset(shown) <= multiset(sorted)
      && (forall e :: e in multiset(sorted) - multiset(shown) ==>
            forall k :: 0 <= k < |shown| ==> e.score <= shown[k].score)
  {
    var shown := Head(sorted);
    var rest := sorted[|shown|..];
    assert sorted == shown + rest;
    assert multiset(sorted) == multiset(shown) + multiset(rest);
    forall e: Entry | e in multiset(sorted) - multiset(shown)
      ensures forall k :: 0 <= k < |shown| ==> e.score <= shown[k].score
    {
      assert e in rest;
      var j: int :| 0 <= j < |rest| && rest[j] == e;
      assert sorted[|shown| + j] == e;
    }
  }

  /**
   * The panel says there is no data exactly when the store fails or holds
   * no rows; otherwise it shows between one and five cards, as many as
   * there are rows up to five, in non-increasing score order, each a
   * stored row, and no row left out scores above any card shown.
   */
  lemma PanelShowsTopFive(store: Store)
    ensures LeaderboardPanel(store).NoData? <==> store.Unreachable? || store.rows == []
    ensures LeaderboardPanel(store).Cards? ==>
      var rows := store.rows;
      var shown := LeaderboardPanel(store).shown;
      && 1 <= |shown| <= 5
      && |shown| == (if |rows| < 5 then |rows| else 5)
      && Descending(shown)
      && multiset(shown) <= multiset(rows)
      && (forall e :: e in multiset(rows) - multiset(shown) ==>
            forall k :: 0 <= k < |shown| ==> e.score <= shown[k].score)
  {
    if LeaderboardPanel(store).Cards? {
      HeadIsTop(SortByScore(store.rows));
    }
  }

  /** Scores of a list of rows, in order. */
  function Scores(rows: seq<Entry>): (r: seq<int>)
    ensures |r| == |rows|
    ensures forall i :: 0 <= i < |rows| ==> r[i] == rows[i].score
  {
    if rows == [] then [] else [rows[0].score] + Scores(rows[1..])
  }

  /** The highest score in a non-empty list leads a descending one. */
  lemma DescendingHead(rows: seq<Entry>)
    requires rows != [] && Descending(rows)
    ensures forall e :: e in rows ==> e.score <= rows[0].score
  {
  }

  /** The tail of a descending list is descending. */
  lemma DescendingTail(rows: seq<Entry>)
    requires rows != [] && Descending(rows)
    ensures Descending(rows[1..])
  {
    forall i, j | 0 <= i < j < |rows[1..]| ensures rows[1..][i].score >= rows[1..][j].score {
      assert rows[1..][i] == rows[i + 1] && rows[1..][j] == rows[j + 1];
    }
  }

  /** Swapping two rows of equal score keeps the rows, the scores and so the order. */
  lemma SwapEqualScores(b: seq<Entry>, k: nat)
    requires k < |b| && b[0].score == b[k].score && Descending(b)
    ensures var c := b[k := b[0]][0 := b[k]];
      multiset(c) == multiset(b) && Scores(c) == Scores(b) && Descending(c)
  {
    var c := b[k := b[0]][0 := b[k]];
    assert forall i :: 0 <= i < |b| ==> c[i].score == b[i].score;
    assert Scores(c) == Scores(b);
  }

  /** Two lists of the same rows with the same first row have the same rows after it. */
  lemma SameTail(a: seq<Entry>, c: seq<Entry>)
    requires a != [] && c != [] && a[0] == c[0] && multiset(a) == multiset(c)
    ensures multiset(a[1..]) == multiset(c[1..])
  {
    assert a == [a[0]] + a[1..] && c == [c[0]] + c[1..];
    assert multiset(a) == multiset{a[0]} + multiset(a[1..]);
    assert multiset(c) == multiset{a[0]} + multiset(c[1..]);
    assert multiset(a[1..]) == multiset(a) - multiset{a[0]};
    assert multiset(c[1..]) == multiset(c) - multiset{a[0]};
  }

  /**
   * A descending list `b` of the same rows as a descending list `a` can be
   * reordered among equal scores so that it starts with `a`'s first row.
   */
  lemma AlignHead(a: seq<Entry>, b: seq<Entry>) returns (c: seq<Entry>)
    requires a != [] && Descending(a) && Descending(b) && multiset(a) == multiset(b)
    ensures c != [] && c[0] == a[0]
    ensures multiset(c) == multiset(b) && Scores(c) == Scores(b) && Descending(c)
  {
    assert a[0] in multiset(b) && b[0] in multiset(a);
    DescendingHead(a);
    DescendingHead(b);
    var k :| 0 <= k < |b| && b[k] == a[0];
    SwapEqualScores(b, k);
    c := b[k := b[0]][0 := b[k]];
  }

  /**
   * Two descending orders of the same rows have the same score in every
   * position: how the sort breaks ties can change which names are shown,
   * but never the scores.
   */
  lemma {:induction false} ScoresIndependentOfTies(a: seq<Entry>, b: seq<Entry>)
    requires Descending(a) && Descending(b) && multiset(a) == multiset(b)
    ensures Scores(a) == Scores(b)
    decreases |a|
  {
    if a == [] {
      assert |multiset(b)| == 0;
    } else {
      var c := AlignHead(a, b);
      SameTail(a, c);
      DescendingTail(a);
      DescendingTail(c);
      ScoresIndependentOfTies(a[1..], c[1..]);
      assert Scores(a) == [a[0].score] + Scores(a[1..]);
      assert Scores(c) == [c[0].score] + Scores(c[1..]);
    }
  }
}
