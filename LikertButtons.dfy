/** The discrete rating control: `count` radio buttons on an evenly spaced
    scale over [0, 1], and a shadow of the selected button ("current label")
    kept apart from the value supplied from outside. */
module LikertButtons {
  import opened JsBuiltins

  /** Half-width of the window in which an incoming value selects a point. */
  const Tolerance: real := 0.0001

  function DigitChar(d: nat): (c: char)
    requires d < 10
    ensures '0' <= c <= '9'
  {
    ('0' as int + d) as char
  }

  /** The template literal `${idx}`: the decimal rendering of an index. These
      strings are the keys of the value map and the labels of the buttons. */
  function Decimal(n: nat): (s: string)
    ensures |s| >= 1
    ensures n < 10 <==> |s| == 1
  {
    if n < 10 then [DigitChar(n)] else Decimal(n / 10) + [DigitChar(n % 10)]
  }

  /** Different indices render as different keys. */
  lemma {:induction false} DecimalInjective(a: nat, b: nat)
    requires Decimal(a) == Decimal(b)
    ensures a == b
  {
    if a >= 10 && b >= 10 {
      var da, db := Decimal(a), Decimal(b);
      assert da[|da| - 1] == db[|db| - 1];
      assert a % 10 == b % 10;
      assert da[..|da| - 1] == Decimal(a / 10);
      assert db[..|db| - 1] == Decimal(b / 10);
      DecimalInjective(a / 10, b / 10);
    }
  }

  lemma AllDecimalsInjective()
    ensures forall a: nat, b: nat :: Decimal(a) == Decimal(b) ==> a == b
  {
    forall a: nat, b: nat | Decimal(a) == Decimal(b) ensures a == b {
      DecimalInjective(a, b);
    }
  }

  /** The scale point of button `i`: `i / (count - 1)`. */
  function Point(i: int, count: int): (p: real)
    requires count != 1
    ensures 0 <= i < count ==> 0.0 <= p <= 1.0
  {
    RatioInUnitInterval(i, count);
    (i as real) / ((count - 1) as real)
  }

  lemma RatioInUnitInterval(i: int, count: int)
    requires count != 1
    ensures 0 <= i < count ==> 0.0 <= (i as real) / ((count - 1) as real) <= 1.0
  {
    if 0 <= i < count {
      var n := (count - 1) as real;
      assert n / n == 1.0;
      assert ((count - 1 - i) as real) / n == n / n - (i as real) / n;
      assert ((count - 1 - i) as real) / n >= 0.0;
    }
  }

  /** `valueMap`: key `${i}` maps to `i / (count - 1)` for every `0 <= i < count`.
      A `count` of 1 divides zero by zero and is excluded. */
  function ValueMap(count: int): (m: map<string, real>)
    requires count != 1
    ensures forall i :: 0 <= i < count ==> Decimal(i) in m && m[Decimal(i)] == Point(i, count)
    ensures forall k :: k in m ==> exists i :: 0 <= i < count && k == Decimal(i)
  {
    AllDecimalsInjective();
    map i | 0 <= i < count :: Decimal(i) := Point(i, count)
  }

  /** The set of the first `n` keys. */
  function KeysBelow(n: nat): set<string>
  {
    set i | 0 <= i < n :: Decimal(i)
  }

  lemma {:induction false} KeysBelowSize(n: nat)
    ensures |KeysBelow(n)| == n
  {
    if n > 0 {
      KeysBelowSize(n - 1);
      KeysBelowStep(n - 1);
    }
  }

  /** The next key is new: adding it grows the key set by one. */
  lemma KeysBelowStep(n: nat)
    ensures KeysBelow(n + 1) == KeysBelow(n) + {Decimal(n)}
    ensures Decimal(n) !in KeysBelow(n)
  {
    if Decimal(n) in KeysBelow(n) {
      var i :| 0 <= i < n && Decimal(i) == Decimal(n);
      DecimalInjective(i, n);
    }
  }

  /** The value map has exactly `count` keys, `"0"` to `"count-1"`, and none of
      them is the empty "no selection" label. */
  lemma ValueMapKeys(count: int)
    requires count >= 2
    ensures ValueMap(count).Keys == KeysBelow(count)
    ensures |ValueMap(count)| == count
    ensures "" !in ValueMap(count)
  {
    var m := ValueMap(count);
    assert m.Keys == KeysBelow(count) by {
      forall k | k in KeysBelow(count) ensures k in m {
        var i :| 0 <= i < count && k == Decimal(i);
      }
    }
    KeysBelowSize(count);
  }

  lemma PointsApart(i: int, j: int, count: int)
    requires count >= 2 && i < j
    ensures Point(j, count) - Point(i, count) == ((j - i) as real) / ((count - 1) as real)
    ensures Point(j, count) - Point(i, count) >= 1.0 / ((count - 1) as real)
  {
    var n := (count - 1) as real;
    assert Point(j, count) - Point(i, count) == ((j - i) as real) / n;
    assert ((j - i) as real) / n >= 1.0 / n by {
      assert ((j - i) as real) / n - 1.0 / n == ((j - i - 1) as real) / n;
      assert ((j - i - 1) as real) / n >= 0.0;
    }
  }

  /** The scale starts at 0, ends at 1, rises strictly and stays in [0, 1]. */
  lemma ScaleShape(count: int)
    requires count >= 2
    ensures Point(0, count) == 0.0 && Point(count - 1, count) == 1.0
    ensures forall i, j :: 0 <= i < j < count ==> Point(i, count) < Point(j, count)
    ensures forall i :: 0 <= i < count ==> 0.0 <= Point(i, count) <= 1.0
  {
    forall i, j | 0 <= i < j < count ensures Point(i, count) < Point(j, count) {
      PointsApart(i, j, count);
    }
  }

  /** The test `Math.abs(currentValue - v) < 0.0001`. */
  predicate Matches(value: real, point: real): (b: bool)
    ensures b <==> point - Tolerance < value < point + Tolerance
  {
    Abs(value - point) < Tolerance
  }

  /** The last of the first `n` buttons whose point matches `value`. */
  function LastMatchBelow(value: real, n: int, count: int): (r: Option<nat>)
    requires count != 1
    ensures r.Some? ==> r.value < n && Matches(value, Point(r.value, count))
    ensures r.Some? ==> forall j :: r.value < j < n ==> !Matches(value, Point(j, count))
    ensures r.None? ==> forall j :: 0 <= j < n ==> !Matches(value, Point(j, count))
    decreases n
  {
    if n <= 0 then None
    else if Matches(value, Point(n - 1, count)) then Some(n - 1)
    else LastMatchBelow(value, n - 1, count)
  }

  /** The selection after the sync over the first `n` keys, starting from `selection`. */
  function SyncedBelow(selection: string, currentValue: Option<real>, n: int, count: int): string
    requires count != 1
  {
    match currentValue
    case None => selection
    case Some(v) =>
      match LastMatchBelow(v, n, count)
      case None => selection
      case Some(i) => Decimal(i)
  }

  /** The selection the sync effect leaves behind. */
  function Synced(selection: string, currentValue: Option<real>, count: int): string
    requires count != 1
  {
    SyncedBelow(selection, currentValue, count, count)
  }

  /** When `count - 1 <= 10000` the points are at least the tolerance apart,
      so a point matches no value but its own. */
  lemma OnlyOwnPointMatches(k: int, j: int, count: int)
    requires 2 <= count <= 10001
    requires j != k
    ensures !Matches(Point(k, count), Point(j, count))
  {
    assert 1.0 / ((count - 1) as real) >= Tolerance by {
      assert (count - 1) as real * Tolerance <= 1.0;
    }
    if k < j {
      PointsApart(k, j, count);
    } else {
      PointsApart(j, k, count);
    }
  }

  /** Round trip: syncing with the value of key `${k}` selects `${k}`, whatever
      was selected before. */
  lemma SyncWithPointSelectsIt(selection: string, k: int, count: int)
    requires 2 <= count <= 10001
    requires 0 <= k < count
    ensures Synced(selection, Some(Point(k, count)), count) == Decimal(k)
  {
    var r := LastMatchBelow(Point(k, count), count, count);
    assert Matches(Point(k, count), Point(k, count));
    if r.Some? && r.value != k {
      OnlyOwnPointMatches(k, r.value, count);
    }
  }

  /** The bound is tight: with 10002 buttons the second point is within the
      tolerance of the first, and since the last match wins, syncing with the
      value of key "0" selects key "1". */
  lemma SyncPastBoundSelectsNeighbour(selection: string)
    ensures Synced(selection, Some(Point(0, 10002)), 10002) == Decimal(1)
  {
    var count := 10002;
    var r := LastMatchBelow(0.0, count, count);
    assert Point(0, count) == 0.0;
    assert Matches(0.0, Point(1, count));
  }

  /** A value within the tolerance of no point leaves the selection as it was. */
  lemma SyncWithoutMatchKeepsLabel(selection: string, value: real, count: int)
    requires count != 1
    requires forall i :: 0 <= i < count ==> !Matches(value, Point(i, count))
    ensures Synced(selection, Some(value), count) == selection
  {
  }

  /** One more key in the walk: the selection changes to that key exactly
      when its point matches. */
  lemma SyncStep(selection: string, currentValue: Option<real>, i: nat, count: int)
    requires count != 1
    ensures SyncedBelow(selection, currentValue, i + 1, count) ==
      if currentValue.Some? && Matches(currentValue.value, Point(i, count)) then Decimal(i)
      else SyncedBelow(selection, currentValue, i, count)
  {
  }

  /** One rating control. `currentLabel` is `""` (no button selected) or a key
      of the value map. */
  class RatingControl {
    const count: int
    var currentLabel: string

    constructor (count: int)
      requires count != 1
      ensures this.count == count
      ensures currentLabel == ""
    {
      this.count := count;
      currentLabel := "";
    }

    /** The effect run when `currentValue` changes: walk the keys in order and
        select every key whose point matches, so the last match wins. */
    method Sync(currentValue: Option<real>)
      requires count != 1
      modifies this
      ensures currentLabel == Synced(old(currentLabel), currentValue, count)
    {
      var valueMap := ValueMap(count);
      var i := 0;
      while i < count
        invariant i <= count || (count <= 0 && i == 0)
        invariant currentLabel == SyncedBelow(old(currentLabel), currentValue, i, count)
      {
        var k := Decimal(i);
        var v := valueMap[k];
        SyncStep(old(currentLabel), currentValue, i, count);
        if currentValue.Some? && Abs(currentValue.value - v) < Tolerance {
          currentLabel := k;
        }
        i := i + 1;
      }
    }

    /** A click on the button with key `key`: select it, then emit its point. */
    method Click(key: string) returns (emitted: real)
      requires count != 1
      requires key in ValueMap(count)
      modifies this
      ensures currentLabel == key
      ensures emitted == ValueMap(count)[key]
    {
      currentLabel := key;
      emitted := ValueMap(count)[key];
    }
  }

  /** A click on button `i` emits `i / (count - 1)`, a value in [0, 1]; syncing
      with the emitted value afterwards keeps button `i` selected. */
  lemma ClickEmitsPoint(i: int, count: int)
    requires 2 <= count <= 10001 && 0 <= i < count
    ensures Decimal(i) in ValueMap(count)
    ensures 0.0 <= ValueMap(count)[Decimal(i)] <= 1.0
    ensures Synced(Decimal(i), Some(ValueMap(count)[Decimal(i)]), count) == Decimal(i)
  {
    ScaleShape(count);
    SyncWithPointSelectsIt(Decimal(i), i, count);
  }

  /** Scenario: a fresh five-point control synced with 0.5 selects key "2";
      synced with 0.33 it keeps "" (no selection), and a click still emits
      a point of the scale. */
  method FivePointSync() returns (afterHalf: string, afterThird: string, clicked: real)
    ensures afterHalf == "2"
    ensures afterThird == ""
    ensures clicked == 0.75
  {
    var half := new RatingControl(5);
    assert Point(2, 5) == 0.5;
    SyncWithPointSelectsIt("", 2, 5);
    half.Sync(Some(0.5));
    afterHalf := half.currentLabel;

    var third := new RatingControl(5);
    assert forall i :: 0 <= i < 5 ==> !Matches(0.33, Point(i, 5)) by {
      assert Point(0, 5) == 0.0 && Point(1, 5) == 0.25 && Point(2, 5) == 0.5;
      assert Point(3, 5) == 0.75 && Point(4, 5) == 1.0;
    }
    SyncWithoutMatchKeepsLabel("", 0.33, 5);
    third.Sync(Some(0.33));
    afterThird := third.currentLabel;
    assert Decimal(3) == "3";
    clicked := third.Click("3");
    assert Point(3, 5) == 0.75;
  }
}
