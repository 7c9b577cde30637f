/**
 * A closing-price series as the service keeps it: a `TreeMap` from trading
 * date to closing price. Dates are day numbers; the map becomes a sequence of
 * entries in strictly ascending date order, and `TreeMap.put` becomes `Put`.
 */
module PriceSeries {
  import opened Optional

  /** One trading day's closing price. */
  datatype DailyClose = DailyClose(date: int, price: real)

  type Series = seq<DailyClose>

  /** The TreeMap invariant: keys unique and in ascending order. */
  predicate Ascending(s: Series) {
    forall i, j :: 0 <= i < j < |s| ==> s[i].date < s[j].date
  }

  /** Every date of `s` is later than `x`. */
  predicate After(s: Series, x: int) {
    forall i :: 0 <= i < |s| ==> x < s[i].date
  }

  /** `TreeMap.get`: the price stored under date `d`, if any. */
  function Lookup(s: Series, d: int): (r: Option<real>)
    ensures r.Some? <==> exists i :: 0 <= i < |s| && s[i].date == d
  {
    if s == [] then None
    else if s[0].date == d then Some(s[0].price)
    else
      var r := Lookup(s[1..], d);
      assert forall i :: 0 < i < |s| ==> s[i] == s[1..][i - 1];
      r
  }

  /** `TreeMap.values()`: the prices in ascending date order. */
  function Prices(s: Series): (r: seq<real>)
    ensures |r| == |s|
  {
    seq(|s|, i requires 0 <= i < |s| => s[i].price)
  }

  /**
   * `TreeMap.put(d, p)`: inserts a new date in its place, or replaces the
   * price of a date already present (see `PutLookup`).
   */
  function Put(s: Series, d: int, p: real): (r: Series)
    requires Ascending(s)
    ensures Ascending(r)
    ensures forall x :: x < d && After(s, x) ==> After(r, x)
  {
    if s == [] then [DailyClose(d, p)]
    else if d < s[0].date then
      [DailyClose(d, p)] + s
    else if d == s[0].date then
      [DailyClose(d, p)] + s[1..]
    else
      var rest := Put(s[1..], d, p);
      assert After(s[1..], s[0].date);
      [s[0]] + rest
  }

  /** After `Put(s, d, p)` the date `d` holds `p` and every other date keeps its price. */
  lemma {:induction false} PutLookup(s: Series, d: int, p: real, e: int)
    requires Ascending(s)
    ensures Lookup(Put(s, d, p), e) == if e == d then Some(p) else Lookup(s, e)
  {
    if s != [] && d > s[0].date {
      var rest := s[1..];
      PutLookup(rest, d, p, e);
      var r := Put(s, d, p);
      assert r == [s[0]] + Put(rest, d, p);
      assert r[1..] == Put(rest, d, p);
      if e != s[0].date {
        assert Lookup(r, e) == Lookup(r[1..], e);
      }
    }
  }

  /** Putting a date later than every stored date appends it. */
  lemma {:induction false} PutAfterLast(s: Series, d: int, p: real)
    requires Ascending(s)
    requires forall i :: 0 <= i < |s| ==> s[i].date < d
    ensures Put(s, d, p) == s + [DailyClose(d, p)]
  {
    if s != [] {
      var rest := s[1..];
      assert Ascending(rest);
      assert forall i :: 0 <= i < |rest| ==> rest[i].date < d;
      PutAfterLast(rest, d, p);
      var last := [DailyClose(d, p)];
      assert Put(s, d, p) == [s[0]] + (rest + last);
      assert [s[0]] + (rest + last) == s + last;
    }
  }
}
