/**
 * The pin list of Assets/Scripts/BowlingLane.cs. Each pin is a value: its
 * number, its place in the rack (row and column, which the source turns into
 * a start position) and whether it is knocked down. A pin object in the
 * source is updated in place; here the list entry is replaced.
 */
module PinLane {

  datatype Pin = Pin(number: int, row: int, col: int, knocked: bool)

  /** The number of knocked-down pins. */
  function KnockedCount(ps: seq<Pin>): nat {
    if ps == [] then 0 else (if ps[0].knocked then 1 else 0) + KnockedCount(ps[1..])
  }

  /** The standing pins, in list order. */
  function Standing(ps: seq<Pin>): seq<Pin> {
    if ps == [] then [] else (if ps[0].knocked then [] else [ps[0]]) + Standing(ps[1..])
  }

  /** The knocked-down pins, in list order. */
  function Knocked(ps: seq<Pin>): seq<Pin> {
    if ps == [] then [] else (if ps[0].knocked then [ps[0]] else []) + Knocked(ps[1..])
  }

  /** Every pin set up again: ResetPin clears the knocked flag and keeps the pin. */
  function ResetAll(ps: seq<Pin>): (r: seq<Pin>)
    ensures |r| == |ps|
    ensures forall i :: 0 <= i < |ps| ==> r[i] == ps[i].(knocked := false)
  {
    if ps == [] then [] else [ps[0].(knocked := false)] + ResetAll(ps[1..])
  }

  /** The first occurrence of x removed, or ps itself when x is not in it (List.Remove). */
  function RemoveFirst(ps: seq<Pin>, x: Pin): seq<Pin> {
    if ps == [] then [] else if ps[0] == x then ps[1..] else [ps[0]] + RemoveFirst(ps[1..], x)
  }

  /** The number of pins before row r of the rack, row k holding k + 1 pins: 0, 1, 3, 6, 10. */
  function RowStart(r: int): int {
    if r <= 0 then 0 else RowStart(r - 1) + r
  }

  /** The row of the rack that its i-th pin (from 0) stands in. */
  function RowOf(i: int): int {
    if i < 1 then 0 else if i < 3 then 1 else if i < 6 then 2 else 3
  }

  /** The i-th pin (from 0) of a fresh rack: number i + 1, standing, in its row and column. */
  function RackPin(i: int): Pin {
    Pin(i + 1, RowOf(i), i - RowStart(RowOf(i)), false)
  }

  /** The pin in column c of row r is the (RowStart(r) + c)-th of the rack. */
  lemma RowOfStart(r: int, c: int)
    requires 0 <= r < 4 && 0 <= c <= r
    ensures RowOf(RowStart(r) + c) == r
    ensures RowStart(r + 1) == RowStart(r) + r + 1
  {
    // Unfolds RowStart to the last row; without it the solver runs out of resource.
    assert RowStart(4) == 10;
  }

  // ----- The filters and the count -----

  lemma {:induction false} KnockedCountBounds(ps: seq<Pin>)
    ensures 0 <= KnockedCount(ps) <= |ps|
    ensures KnockedCount(ps) == |Knocked(ps)|
    ensures KnockedCount(ps) + |Standing(ps)| == |ps|
  {
    if ps != [] {
      KnockedCountBounds(ps[1..]);
    }
  }

  lemma {:induction false} StandingAppend(a: seq<Pin>, b: seq<Pin>)
    ensures Standing(a + b) == Standing(a) + Standing(b)
    ensures Knocked(a + b) == Knocked(a) + Knocked(b)
    ensures KnockedCount(a + b) == KnockedCount(a) + KnockedCount(b)
  {
    if a != [] {
      assert (a + b)[1..] == a[1..] + b;
      StandingAppend(a[1..], b);
    } else {
      assert a + b == b;
    }
  }

  /** The standing pins are exactly the list's pins that are not knocked down, and none of them is. */
  lemma {:induction false} StandingMembers(ps: seq<Pin>)
    ensures forall p :: p in Standing(ps) <==> p in ps && !p.knocked
    ensures KnockedCount(Standing(ps)) == 0
  {
    if ps != [] {
      StandingMembers(ps[1..]);
      var head := if ps[0].knocked then [] else [ps[0]];
      StandingAppend(head, Standing(ps[1..]));
      assert ps == [ps[0]] + ps[1..];
      assert KnockedCount(head) == 0;
    }
  }

  /** The knocked-down pins are exactly the list's pins that are knocked down. */
  lemma {:induction false} KnockedMembers(ps: seq<Pin>)
    ensures forall p :: p in Knocked(ps) <==> p in ps && p.knocked
  {
    if ps != [] {
      KnockedMembers(ps[1..]);
      assert ps == [ps[0]] + ps[1..];
    }
  }

  /** A list with no knocked-down pin is its own standing list. */
  lemma {:induction false} NoneKnocked(ps: seq<Pin>)
    requires Knocked(ps) == []
    ensures Standing(ps) == ps
  {
    if ps != [] {
      assert !ps[0].knocked;
      NoneKnocked(ps[1..]);
      assert ps == [ps[0]] + ps[1..];
    }
  }

  /**
   * Removing the first knocked-down pin keeps the standing pins and drops
   * it from the knocked ones: no standing pin equals it, and no pin before it does.
   */
  lemma {:induction false} RemoveKnocked(ps: seq<Pin>)
    requires Knocked(ps) != []
    ensures Standing(RemoveFirst(ps, Knocked(ps)[0])) == Standing(ps)
    ensures Knocked(RemoveFirst(ps, Knocked(ps)[0])) == Knocked(ps)[1..]
  {
    var x := Knocked(ps)[0];
    if !ps[0].knocked {
      assert Knocked(ps) == Knocked(ps[1..]);
      assert ps[0] != x by {
        KnockedMembers(ps);
      }
      RemoveKnocked(ps[1..]);
      var r := [ps[0]] + RemoveFirst(ps[1..], x);
      assert r[0] == ps[0] && r[1..] == RemoveFirst(ps[1..], x);
    }
  }

  /** All ten pins of a full rack are down exactly when every pin is knocked down. */
  lemma {:induction false} AllDownMeansEveryPin(ps: seq<Pin>)
    ensures KnockedCount(ps) == |ps| <==> forall i :: 0 <= i < |ps| ==> ps[i].knocked
  {
    if ps != [] {
      AllDownMeansEveryPin(ps[1..]);
      KnockedCountBounds(ps[1..]);
      if forall i :: 0 <= i < |ps| ==> ps[i].knocked {
        forall i | 0 <= i < |ps[1..]| ensures ps[1..][i].knocked {
          assert ps[1..][i] == ps[i + 1];
        }
      }
      if KnockedCount(ps) == |ps| {
        forall i | 0 <= i < |ps| ensures ps[i].knocked {
          if i > 0 { assert ps[i] == ps[1..][i - 1]; }
        }
      }
    }
  }

  lemma {:induction false} ResetAllNoneKnocked(ps: seq<Pin>)
    ensures KnockedCount(ResetAll(ps)) == 0 && Standing(ResetAll(ps)) == ResetAll(ps)
  {
    if ps != [] {
      ResetAllNoneKnocked(ps[1..]);
      assert ResetAll(ps)[1..] == ResetAll(ps[1..]);
    }
  }

  /** A standing pin that falls adds one to the knocked-down count. */
  lemma {:induction false} KnockOne(ps: seq<Pin>, i: int)
    requires 0 <= i < |ps| && !ps[i].knocked
    ensures KnockedCount(ps[i := ps[i].(knocked := true)]) == KnockedCount(ps) + 1
  {
    var qs := ps[i := ps[i].(knocked := true)];
    if i > 0 {
      assert qs[1..] == ps[1..][i - 1 := ps[1..][i - 1].(knocked := true)];
      KnockOne(ps[1..], i - 1);
    } else {
      assert qs[1..] == ps[1..];
    }
  }

  /** With no pin knocked down, every pin of the list stands. */
  lemma AllStanding(ps: seq<Pin>)
    requires KnockedCount(ps) == 0
    ensures forall i :: 0 <= i < |ps| ==> !ps[i].knocked
  {
    KnockedCountBounds(ps);
    KnockedMembers(ps);
    assert Knocked(ps) == [];
    forall i | 0 <= i < |ps| ensures !ps[i].knocked {
      assert ps[i] in ps;
    }
  }

  /**
   * The standing count is measured against a full rack: once the knocked-down
   * pins of a full rack are removed, the lane still reports all 10 pins
   * standing although only the pins left in the list stand.
   */
  lemma StandingCountAfterRemoval(ps: seq<Pin>)
    requires |ps| == 10
    ensures 10 - KnockedCount(Standing(ps)) == 10
    ensures |Standing(ps)| == 10 - KnockedCount(ps)
  {
    StandingMembers(ps);
    KnockedCountBounds(ps);
  }

  /** The rack the lane sets up: pins 1 to 10 in list order, row by row from the one nearest the bowler. */
  predicate Rack(ps: seq<Pin>) {
    |ps| == 10 && forall i :: 0 <= i < 10 ==> ps[i] == RackPin(i)
  }

  /**
   * Every pin of a fresh rack stands, and row r holds r + 1 pins: the pins
   * RowStart(r) to RowStart(r) + r, in columns 0 to r.
   */
  lemma RackStands(ps: seq<Pin>)
    requires Rack(ps)
    ensures KnockedCount(ps) == 0 && Standing(ps) == ps
    ensures forall i :: 0 <= i < 10 ==>
      && 0 <= ps[i].row < 4 && 0 <= ps[i].col <= ps[i].row
      && RowStart(ps[i].row) <= i <= RowStart(ps[i].row) + ps[i].row
    ensures RowStart(4) == 10
  {
    // Unfolds RowStart to the last row; without it the solver runs out of resource.
    assert RowStart(4) == 10;
    NoKnockedPin(ps);
  }

  lemma {:induction false} NoKnockedPin(ps: seq<Pin>)
    requires forall i :: 0 <= i < |ps| ==> !ps[i].knocked
    ensures KnockedCount(ps) == 0 && Knocked(ps) == [] && Standing(ps) == ps
  {
    if ps != [] {
      NoKnockedPin(ps[1..]);
      assert ps == [ps[0]] + ps[1..];
    }
  }

  class Lane {
    var pins: seq<Pin>
    /** Whether the pin prefab and the pin area are both set in the inspector. */
    const canSetUp: bool

    constructor (canSetUp: bool)
      ensures pins == [] && this.canSetUp == canSetUp
    {
      this.canSetUp := canSetUp;
      pins := [];
    }

    /** Empties the list; the pin objects are destroyed. */
    method ClearPins()
      modifies this
      ensures pins == []
    {
      pins := [];
    }

    /** Clears the lane and, when it can, sets up the ten pins row by row. */
    method SetupPins()
      modifies this
      ensures canSetUp ==> Rack(pins)
      ensures !canSetUp ==> pins == []
    {
      ClearPins();
      if !canSetUp {
        return;
      }
      var pinNumber := 1;
      for row := 0 to 4
        invariant pinNumber == RowStart(row) + 1 && |pins| == RowStart(row)
        invariant forall i :: 0 <= i < |pins| ==> pins[i] == RackPin(i)
      {
        var pinsInRow := row + 1;
        for col := 0 to pinsInRow
          invariant pinNumber == RowStart(row) + col + 1 && |pins| == RowStart(row) + col
          invariant forall i :: 0 <= i < |pins| ==> pins[i] == RackPin(i)
        {
          RowOfStart(row, col);
          pins := pins + [Pin(pinNumber, row, col, false)];
          pinNumber := pinNumber + 1;
        }
      }
    }

    /** The physics notices that pin i has fallen (BowlingPin.SetKnockedDown). */
    method KnockDown(i: int)
      requires 0 <= i < |pins|
      modifies this
      ensures pins == old(pins)[i := old(pins)[i].(knocked := true)]
    {
      pins := pins[i := pins[i].(knocked := true)];
    }

    /** Resets the standing pins; a standing pin stays standing, so the list is unchanged. */
    method ResetStandingPins()
      modifies this
      ensures pins == old(pins)
    {
      for i := 0 to |pins|
        invariant pins == old(pins)
      {
        if !pins[i].knocked {
          pins := pins[i := pins[i].(knocked := false)];
        }
      }
    }

    /** Sets every pin up again. */
    method ResetAllPins()
      modifies this
      ensures pins == ResetAll(old(pins))
    {
      ghost var original := pins;
      for i := 0 to |pins|
        invariant |pins| == |original|
        invariant forall j :: 0 <= j < i ==> pins[j] == original[j].(knocked := false)
        invariant forall j :: i <= j < |pins| ==> pins[j] == original[j]
      {
        pins := pins[i := pins[i].(knocked := false)];
      }
    }

    method GetKnockedDownPinCount() returns (count: int)
      ensures count == KnockedCount(pins)
      ensures 0 <= count <= |pins|
    {
      count := 0;
      for i := 0 to |pins|
        invariant count == KnockedCount(pins[..i])
      {
        StandingAppend(pins[..i], [pins[i]]);
        assert pins[..i + 1] == pins[..i] + [pins[i]];
        if pins[i].knocked {
          count := count + 1;
        }
      }
      assert pins[..|pins|] == pins;
      KnockedCountBounds(pins);
    }

    /** The pins standing, counted against a full rack of 10. */
    method GetStandingPinCount() returns (standing: int)
      ensures standing == 10 - KnockedCount(pins)
      ensures |pins| == 10 ==> standing == |Standing(pins)|
    {
      var knocked := GetKnockedDownPinCount();
      KnockedCountBounds(pins);
      return 10 - knocked;
    }

    method AllPinsDown() returns (allDown: bool)
      ensures allDown <==> KnockedCount(pins) == 10
      ensures |pins| == 10 ==> (allDown <==> forall i :: 0 <= i < 10 ==> pins[i].knocked)
    {
      var knocked := GetKnockedDownPinCount();
      AllDownMeansEveryPin(pins);
      return knocked == 10;
    }

    /** The first pass of RemoveKnockedDownPins: the knocked-down pins, in list order. */
    method CollectKnockedDownPins() returns (pinsToRemove: seq<Pin>)
      ensures pinsToRemove == Knocked(pins)
    {
      pinsToRemove := [];
      for i := 0 to |pins|
        invariant pinsToRemove == Knocked(pins[..i])
      {
        StandingAppend(pins[..i], [pins[i]]);
        assert pins[..i + 1] == pins[..i] + [pins[i]];
        if pins[i].knocked {
          pinsToRemove := pinsToRemove + [pins[i]];
        }
      }
      assert pins[..|pins|] == pins;
    }

    /** Collects the knocked-down pins, then removes each from the list. */
    method RemoveKnockedDownPins()
      modifies this
      ensures pins == Standing(old(pins))
    {
      var pinsToRemove := CollectKnockedDownPins();
      assert pinsToRemove[0..] == pinsToRemove;
      ghost var original := pins;
      for j := 0 to |pinsToRemove|
        invariant Standing(pins) == Standing(original)
        invariant Knocked(pins) == pinsToRemove[j..]
      {
        var pin := pinsToRemove[j];
        RemoveKnocked(pins);
        pins := RemoveFirst(pins, pin);
        assert pinsToRemove[j..][1..] == pinsToRemove[j + 1..];
      }
      NoneKnocked(pins);
    }
  }
}
