/**
 * The seat map of the booking form: the seats of a screening, as the availability endpoint
 * returns them, grouped by row. Rows come in the default string order of
 * `Array.prototype.sort`; the seats of a row are sorted by number.
 */
module SeatLayout {
  import opened Sequences

  /** A seat as the availability endpoint returns it. */
  datatype SeatView = SeatView(id: int, row: string, number: int, booked: bool)

  /** One row of the drawn map. */
  datatype RowGroup = RowGroup(row: string, seats: seq<SeatView>)

  // ---------------------------------------------------------------------------------------
  // The default string order
  // ---------------------------------------------------------------------------------------

  /** Lexicographic order on character codes, a prefix first. */
  predicate StrLe(a: string, b: string)
    decreases |a|
  {
    a == [] || (b != [] && (a[0] < b[0] || (a[0] == b[0] && StrLe(a[1..], b[1..]))))
  }

  lemma {:induction false} StrLeTotal(a: string, b: string)
    ensures StrLe(a, b) || StrLe(b, a)
    decreases |a|
  {
    if a != [] && b != [] && a[0] == b[0] {
      StrLeTotal(a[1..], b[1..]);
    }
  }

  lemma {:induction false} StrLeTransitive(a: string, b: string, c: string)
    requires StrLe(a, b) && StrLe(b, c)
    ensures StrLe(a, c)
    decreases |a|
  {
    if a != [] && a[0] == b[0] && b[0] == c[0] {
      StrLeTransitive(a[1..], b[1..], c[1..]);
    }
  }

  lemma {:induction false} StrLeAntisymmetric(a: string, b: string)
    requires StrLe(a, b) && StrLe(b, a)
    ensures a == b
    decreases |a|
  {
    if a != [] {
      StrLeAntisymmetric(a[1..], b[1..]);
      assert a == [a[0]] + a[1..] && b == [b[0]] + b[1..];
    }
  }

  predicate SortedStrings(xs: seq<string>) {
    forall i, j :: 0 <= i < j < |xs| ==> StrLe(xs[i], xs[j])
  }

  /** Insertion into a sorted list of strings. */
  function InsertString(x: string, xs: seq<string>): (r: seq<string>)
    requires SortedStrings(xs)
    ensures SortedStrings(r)
    ensures multiset(r) == multiset(xs) + multiset{x}
    ensures forall y :: y in r <==> y == x || y in xs
    decreases |xs|
  {
    if xs == [] || StrLe(x, xs[0]) then
      InsertStringFront(x, xs);
      [x] + xs
    else
      var rest := InsertString(x, xs[1..]);
      InsertStringBehind(x, xs, rest);
      [xs[0]] + rest
  }

  lemma InsertStringFront(x: string, xs: seq<string>)
    requires SortedStrings(xs) && (xs == [] || StrLe(x, xs[0]))
    ensures SortedStrings([x] + xs)
  {
    var r := [x] + xs;
    forall i, j | 0 <= i < j < |r| ensures StrLe(r[i], r[j]) {
      if i == 0 && j > 1 {
        StrLeTransitive(x, xs[0], xs[j - 1]);
      }
    }
  }

  lemma InsertStringBehind(x: string, xs: seq<string>, rest: seq<string>)
    requires SortedStrings(xs) && xs != [] && !StrLe(x, xs[0])
    requires SortedStrings(rest) && multiset(rest) == multiset(xs[1..]) + multiset{x}
    requires forall y :: y in rest <==> y == x || y in xs[1..]
    ensures SortedStrings([xs[0]] + rest)
    ensures multiset([xs[0]] + rest) == multiset(xs) + multiset{x}
    ensures forall y :: y in [xs[0]] + rest <==> y == x || y in xs
  {
    assert xs == [xs[0]] + xs[1..];
    StrLeTotal(x, xs[0]);
    forall k | 0 <= k < |rest| ensures StrLe(xs[0], rest[k]) {
      assert rest[k] in rest;
      if rest[k] != x {
        var m :| 0 <= m < |xs[1..]| && xs[1..][m] == rest[k];
        assert xs[1..][m] == xs[m + 1];
      }
    }
    var r := [xs[0]] + rest;
    forall i, j | 0 <= i < j < |r| ensures StrLe(r[i], r[j]) {
      if i > 0 {
        assert r[i] == rest[i - 1] && r[j] == rest[j - 1];
      } else {
        assert r[j] == rest[j - 1];
      }
    }
  }

  /** `.sort()` on strings. */
  function SortStrings(xs: seq<string>): (r: seq<string>)
    ensures SortedStrings(r)
    ensures multiset(r) == multiset(xs)
    ensures forall y :: y in r <==> y in xs
    decreases |xs|
  {
    if xs == [] then []
    else
      assert xs == [xs[0]] + xs[1..];
      InsertString(xs[0], SortStrings(xs[1..]))
  }

  lemma {:induction false} InsertStringNoDup(x: string, xs: seq<string>)
    requires SortedStrings(xs) && NoDup(xs) && x !in xs
    ensures NoDup(InsertString(x, xs))
    decreases |xs|
  {
    if xs != [] && !StrLe(x, xs[0]) {
      assert xs == [xs[0]] + xs[1..];
      InsertStringNoDup(x, xs[1..]);
      var rest := InsertString(x, xs[1..]);
      assert xs[0] !in rest;
      assert InsertString(x, xs) == [xs[0]] + rest;
    }
  }

  lemma {:induction false} SortStringsNoDup(xs: seq<string>)
    requires NoDup(xs)
    ensures NoDup(SortStrings(xs))
    decreases |xs|
  {
    if xs != [] {
      assert xs == [xs[0]] + xs[1..];
      SortStringsNoDup(xs[1..]);
      InsertStringNoDup(xs[0], SortStrings(xs[1..]));
    }
  }

  // ---------------------------------------------------------------------------------------
  // Sorting a row by seat number
  // ---------------------------------------------------------------------------------------

  predicate AscendingNumbers(xs: seq<SeatView>) {
    forall i, j :: 0 <= i < j < |xs| ==> xs[i].number <= xs[j].number
  }

  /** Insertion into a row sorted by seat number. */
  function InsertSeat(s: SeatView, xs: seq<SeatView>): (r: seq<SeatView>)
    requires AscendingNumbers(xs)
    ensures AscendingNumbers(r)
    ensures multiset(r) == multiset(xs) + multiset{s}
    decreases |xs|
  {
    if xs == [] || s.number <= xs[0].number then
      InsertSeatFront(s, xs);
      [s] + xs
    else
      var rest := InsertSeat(s, xs[1..]);
      InsertSeatBehind(s, xs, rest);
      [xs[0]] + rest
  }

  lemma InsertSeatFront(s: SeatView, xs: seq<SeatView>)
    requires AscendingNumbers(xs) && (xs == [] || s.number <= xs[0].number)
    ensures AscendingNumbers([s] + xs)
  {
    var r := [s] + xs;
    forall i, j | 0 <= i < j < |r| ensures r[i].number <= r[j].number {
      if i == 0 && j > 1 {
        assert r[j] == xs[j - 1];
      }
    }
  }

  lemma InsertSeatBehind(s: SeatView, xs: seq<SeatView>, rest: seq<SeatView>)
    requires AscendingNumbers(xs) && xs != [] && xs[0].number < s.number
    requires AscendingNumbers(rest) && multiset(rest) == multiset(xs[1..]) + multiset{s}
    ensures AscendingNumbers([xs[0]] + rest)
    ensures multiset([xs[0]] + rest) == multiset(xs) + multiset{s}
  {
    assert xs == [xs[0]] + xs[1..];
    forall k | 0 <= k < |rest| ensures xs[0].number <= rest[k].number {
      assert rest[k] in multiset(rest);
      if rest[k] != s {
        assert rest[k] in multiset(xs[1..]);
        assert rest[k] in xs[1..];
      }
    }
    var r := [xs[0]] + rest;
    forall i, j | 0 <= i < j < |r| ensures r[i].number <= r[j].number {
      if i > 0 {
        assert r[i] == rest[i - 1] && r[j] == rest[j - 1];
      } else {
        assert r[j] == rest[j - 1];
      }
    }
  }

  /** `.sort((a, b) => a.number - b.number)` */
  function SortByNumber(xs: seq<SeatView>): (r: seq<SeatView>)
    ensures AscendingNumbers(r)
    ensures multiset(r) == multiset(xs)
    decreases |xs|
  {
    if xs == [] then []
    else
      assert xs == [xs[0]] + xs[1..];
      InsertSeat(xs[0], SortByNumber(xs[1..]))
  }

  // ---------------------------------------------------------------------------------------
  // The layout
  // ---------------------------------------------------------------------------------------

  /** `seats.map(s => s.row)` */
  function RowsOf(seats: seq<SeatView>): (r: seq<string>)
    ensures |r| == |seats| && forall i :: 0 <= i < |seats| ==> r[i] == seats[i].row
  {
    seq(|seats|, i requires 0 <= i < |seats| => seats[i].row)
  }

  /** `seats.filter(seat => seat.row === row)` */
  function InRow(seats: seq<SeatView>, row: string): (r: seq<SeatView>)
    ensures forall s :: s in r <==> s in seats && s.row == row
    decreases |seats|
  {
    if seats == [] then []
    else (if seats[0].row == row then [seats[0]] else []) + InRow(seats[1..], row)
  }

  /** The groups for the given rows, in that order. */
  function Groups(rows: seq<string>, seats: seq<SeatView>): (r: seq<RowGroup>)
    ensures |r| == |rows|
    ensures forall i :: 0 <= i < |rows| ==> r[i].row == rows[i]
    decreases |rows|
  {
    if rows == [] then []
    else [RowGroup(rows[0], SortByNumber(InRow(seats, rows[0])))] + Groups(rows[1..], seats)
  }

  /** The seat map: one group per distinct row, rows sorted, seats of a row sorted by number. */
  function Layout(seats: seq<SeatView>): seq<RowGroup> {
    Groups(SortStrings(Distinct(RowsOf(seats))), seats)
  }

  function Flatten(groups: seq<RowGroup>): seq<SeatView>
    decreases |groups|
  {
    if groups == [] then [] else groups[0].seats + Flatten(groups[1..])
  }

  /** The row label of each group, in order. */
  function RowNames(groups: seq<RowGroup>): seq<string> {
    seq(|groups|, i requires 0 <= i < |groups| => groups[i].row)
  }

  /** The rows of the map are the distinct seat rows, each once, in strictly increasing order. */
  lemma LayoutRows(seats: seq<SeatView>)
    ensures var rows := RowNames(Layout(seats));
      && (forall i, j :: 0 <= i < j < |rows| ==> StrLe(rows[i], rows[j]) && rows[i] != rows[j])
      && (forall r :: r in rows <==> r in RowsOf(seats))
  {
    var sorted := SortStrings(Distinct(RowsOf(seats)));
    SortStringsNoDup(Distinct(RowsOf(seats)));
    assert RowNames(Layout(seats)) == sorted;
  }

  /** Each group holds exactly the seats of its row (with multiplicity), in ascending order of number. */
  lemma {:induction false} GroupsContents(rows: seq<string>, seats: seq<SeatView>, i: nat)
    requires i < |rows|
    ensures var g := Groups(rows, seats)[i];
      && AscendingNumbers(g.seats)
      && multiset(g.seats) == multiset(InRow(seats, rows[i]))
      && forall s :: s in g.seats ==> s.row == rows[i]
    decreases i
  {
    if i > 0 {
      GroupsContents(rows[1..], seats, i - 1);
      assert Groups(rows, seats)[i] == Groups(rows[1..], seats)[i - 1];
    } else {
      var inRow := InRow(seats, rows[0]);
      var g := Groups(rows, seats)[0];
      assert g.seats == SortByNumber(inRow);
      forall s | s in g.seats ensures s.row == rows[0] {
        assert s in multiset(g.seats);
        assert s in multiset(inRow);
      }
    }
  }

  /** The seats of one row, for each row in turn. */
  function ByRows(rows: seq<string>, seats: seq<SeatView>): seq<SeatView>
    decreases |rows|
  {
    if rows == [] then [] else InRow(seats, rows[0]) + ByRows(rows[1..], seats)
  }

  lemma {:induction false} FlattenGroups(rows: seq<string>, seats: seq<SeatView>)
    ensures multiset(Flatten(Groups(rows, seats))) == multiset(ByRows(rows, seats))
    decreases |rows|
  {
    if rows != [] {
      FlattenGroups(rows[1..], seats);
    }
  }

  lemma InRowCons(s: SeatView, rest: seq<SeatView>, row: string)
    ensures InRow([s] + rest, row) == (if s.row == row then [s] else []) + InRow(rest, row)
  {
    assert ([s] + rest)[1..] == rest;
  }

  lemma NoDupTail(rows: seq<string>)
    requires NoDup(rows) && rows != []
    ensures NoDup(rows[1..]) && rows[0] !in rows[1..]
  {
    forall i, j | 0 <= i < j < |rows[1..]| ensures rows[1..][i] != rows[1..][j] {
      assert rows[1..][i] == rows[i + 1] && rows[1..][j] == rows[j + 1];
    }
  }

  /** Taking one more seat off the front adds it once, under its own row, if that row is listed. */
  lemma {:induction false} ByRowsCons(rows: seq<string>, s: SeatView, rest: seq<SeatView>)
    requires NoDup(rows)
    ensures multiset(ByRows(rows, [s] + rest)) ==
              multiset(ByRows(rows, rest)) + (if s.row in rows then multiset{s} else multiset{})
    decreases |rows|
  {
    if rows != [] {
      var t := [s] + rest;
      NoDupTail(rows);
      ByRowsCons(rows[1..], s, rest);
      InRowCons(s, rest, rows[0]);
      var front: multiset<SeatView> := if s.row == rows[0] then multiset{s} else multiset{};
      var later: multiset<SeatView> := if s.row in rows[1..] then multiset{s} else multiset{};
      var extra: multiset<SeatView> := if s.row in rows then multiset{s} else multiset{};
      assert front + later == extra by {
        assert rows == [rows[0]] + rows[1..];
      }
      assert multiset(InRow(t, rows[0])) == front + multiset(InRow(rest, rows[0]));
      Rearrange(front, multiset(InRow(rest, rows[0])), multiset(ByRows(rows[1..], rest)), later, extra);
    }
  }

  lemma Rearrange(front: multiset<SeatView>, here: multiset<SeatView>, there: multiset<SeatView>, later: multiset<SeatView>, extra: multiset<SeatView>)
    requires front + later == extra
    ensures (front + here) + (there + later) == (here + there) + extra
  {
  }

  /** Listing every row once collects every seat exactly once. */
  lemma {:induction false} ByRowsCoversSeats(rows: seq<string>, seats: seq<SeatView>)
    requires NoDup(rows)
    requires forall s :: s in seats ==> s.row in rows
    ensures multiset(ByRows(rows, seats)) == multiset(seats)
    decreases |seats|
  {
    if seats != [] {
      assert seats == [seats[0]] + seats[1..];
      ByRowsCoversSeats(rows, seats[1..]);
      ByRowsCons(rows, seats[0], seats[1..]);
    } else {
      ByRowsEmpty(rows);
    }
  }

  lemma {:induction false} ByRowsEmpty(rows: seq<string>)
    ensures ByRows(rows, []) == []
    decreases |rows|
  {
    if rows != [] {
      ByRowsEmpty(rows[1..]);
    }
  }

  /** Every seat appears in the drawn map exactly as often as in the endpoint's answer. */
  lemma LayoutCoversEachSeatOnce(seats: seq<SeatView>)
    ensures multiset(Flatten(Layout(seats))) == multiset(seats)
  {
    var rows := SortStrings(Distinct(RowsOf(seats)));
    SortStringsNoDup(Distinct(RowsOf(seats)));
    forall s | s in seats ensures s.row in rows {
      var k :| 0 <= k < |seats| && seats[k] == s;
      assert RowsOf(seats)[k] == s.row;
    }
    FlattenGroups(rows, seats);
    ByRowsCoversSeats(rows, seats);
  }
}
