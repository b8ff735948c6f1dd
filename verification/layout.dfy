/** The two-column row layout of `renderItems`: walking the items in order,
    a new row is started at every even index and each item joins the current row. */
module Layout {

  /** One step of the walk: place `x`, the item at `index`, into `rows` */
  function Place<T>(rows: seq<seq<T>>, index: nat, x: T): seq<seq<T>>
    requires index % 2 == 1 ==> |rows| > 0
  {
    if index % 2 == 0 then rows + [[x]]
    else rows[..|rows| - 1] + [rows[|rows| - 1] + [x]]
  }

  /** `rows` is the pairing of `xs`: half as many rows as elements, rounded up,
      every row full but possibly the last, and element `i` at row `i / 2`, slot `i % 2` */
  ghost predicate Paired<T>(rows: seq<seq<T>>, xs: seq<T>) {
    && |rows| == (|xs| + 1) / 2
    && (forall k :: 0 <= k < |rows| - 1 ==> |rows[k]| == 2)
    && (|xs| > 0 ==> |rows[|rows| - 1]| == 2 - |xs| % 2)
    && (forall i :: 0 <= i < |xs| ==> i / 2 < |rows| && i % 2 < |rows[i / 2]| && rows[i / 2][i % 2] == xs[i])
  }

  lemma PlaceKeepsPaired<T>(rows: seq<seq<T>>, xs: seq<T>, x: T)
    requires Paired(rows, xs)
    ensures |xs| % 2 == 1 ==> |rows| > 0
    ensures Paired(Place(rows, |xs|, x), xs + [x])
  {
  }

  /** The rows built after placing every element of `xs` */
  function RowsOf<T>(xs: seq<T>): (rows: seq<seq<T>>)
    ensures Paired(rows, xs)
    decreases |xs|
  {
    if |xs| == 0 then []
    else
      var init := xs[..|xs| - 1];
      var prev := RowsOf(init);
      PlaceKeepsPaired(prev, init, xs[|xs| - 1]);
      assert init + [xs[|xs| - 1]] == xs;
      Place(prev, |init|, xs[|xs| - 1])
  }

  /** The elements of the rows, read left to right and top to bottom */
  function Flatten<T>(rows: seq<seq<T>>): seq<T> {
    if rows == [] then [] else rows[0] + Flatten(rows[1..])
  }

  lemma {:induction false} FlattenSnoc<T>(rows: seq<seq<T>>, r: seq<T>)
    ensures Flatten(rows + [r]) == Flatten(rows) + r
    decreases |rows|
  {
    if rows == [] {
      assert rows + [r] == [r];
      assert Flatten([r]) == r + Flatten([r][1..]);
    } else {
      assert (rows + [r])[1..] == rows[1..] + [r];
      FlattenSnoc(rows[1..], r);
    }
  }

  lemma FlattenPlace<T>(rows: seq<seq<T>>, index: nat, x: T)
    requires index % 2 == 1 ==> |rows| > 0
    ensures Flatten(Place(rows, index, x)) == Flatten(rows) + [x]
  {
    if index % 2 == 0 {
      assert Place(rows, index, x) == rows + [[x]];
      FlattenSnoc(rows, [x]);
    } else {
      var init, last := rows[..|rows| - 1], rows[|rows| - 1];
      assert Place(rows, index, x) == init + [last + [x]];
      FlattenSnoc(init, last + [x]);
      assert rows == init + [last];
      FlattenSnoc(init, last);
    }
  }

  /** Order preservation: reading the rows back gives the input, with nothing
      dropped, duplicated or reordered. */
  lemma {:induction false} FlattenRowsOf<T>(xs: seq<T>)
    ensures Flatten(RowsOf(xs)) == xs
    decreases |xs|
  {
    if |xs| > 0 {
      var init, x := xs[..|xs| - 1], xs[|xs| - 1];
      assert RowsOf(xs) == Place(RowsOf(init), |init|, x);
      FlattenRowsOf(init);
      FlattenPlace(RowsOf(init), |init|, x);
      assert init + [x] == xs;
    }
  }
}
