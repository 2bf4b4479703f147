/**
 * The pin-fall counter of Assets/Script/BowlingGameManager.cs: every fallen
 * pin scores 10, and once a rack's worth of pins has fallen one delayed
 * ResetGame is scheduled. The delay (Invoke) is not modelled: PinFell
 * returns whether it scheduled the reset, and the caller runs
 * ScheduledReset when it is due. ManualReset is the R key of Update, which
 * runs ResetGame at once.
 */
module PinFallCounter {

  const TotalPins := 10

  class BowlingGameManager {
    var currentScore: int
    var fallenPinsCount: int
    var isResetting: bool
    /** The number of PinFell calls so far. */
    ghost var pinFalls: nat
    /** The scheduled ResetGame calls that have not run yet. */
    ghost var pendingResets: nat

    ghost predicate Valid()
      reads this
    {
      && currentScore == 10 * pinFalls
      && 0 <= fallenPinsCount <= pinFalls
      && (isResetting ==> fallenPinsCount >= TotalPins && pendingResets >= 1)
    }

    /** Without manual resets, a reset is pending exactly while isResetting holds, and never more than one. */
    ghost predicate Orderly()
      reads this
    {
      pendingResets == (if isResetting then 1 else 0)
    }

    constructor ()
      ensures Valid() && Orderly()
      ensures currentScore == 0 && fallenPinsCount == 0 && !isResetting && pinFalls == 0
    {
      currentScore, fallenPinsCount, isResetting := 0, 0, false;
      pinFalls, pendingResets := 0, 0;
    }

    /** A pin has fallen: it is counted and scored, and a reset is scheduled once a rack has fallen. */
    method PinFell() returns (scheduled: bool)
      requires Valid()
      modifies this
      ensures Valid()
      ensures fallenPinsCount == old(fallenPinsCount) + 1 && currentScore == old(currentScore) + 10
      ensures pinFalls == old(pinFalls) + 1
      ensures scheduled <==> fallenPinsCount >= TotalPins && !old(isResetting)
      ensures isResetting == (old(isResetting) || scheduled)
      ensures pendingResets == old(pendingResets) + (if scheduled then 1 else 0)
      ensures old(Orderly()) ==> Orderly()
    {
      fallenPinsCount := fallenPinsCount + 1;
      currentScore := currentScore + 10;
      pinFalls := pinFalls + 1;
      scheduled := false;
      if fallenPinsCount >= TotalPins && !isResetting {
        scheduled := true;
        pendingResets := pendingResets + 1;
        isResetting := true;
      }
    }

    /** The counters part of ResetGame: the pins are counted afresh and a new reset may be scheduled. */
    method ResetGame()
      modifies this`fallenPinsCount, this`isResetting
      ensures fallenPinsCount == 0 && !isResetting
    {
      fallenPinsCount := 0;
      isResetting := false;
    }

    /** The delayed ResetGame that PinFell scheduled runs. */
    method ScheduledReset()
      requires Valid() && pendingResets >= 1
      modifies this
      ensures Valid()
      ensures fallenPinsCount == 0 && !isResetting && currentScore == old(currentScore)
      ensures pinFalls == old(pinFalls) && pendingResets == old(pendingResets) - 1
      ensures old(Orderly()) ==> Orderly()
    {
      ResetGame();
      pendingResets := pendingResets - 1;
    }

    /** The R key: ResetGame runs at once, and a reset already scheduled still runs later. */
    method ManualReset()
      requires Valid()
      modifies this
      ensures Valid()
      ensures fallenPinsCount == 0 && !isResetting && currentScore == old(currentScore)
      ensures pinFalls == old(pinFalls) && pendingResets == old(pendingResets)
    {
      ResetGame();
    }
  }

  /**
   * n pins fall on a fresh counter with no reset run in between: the score is
   * 10 n, and exactly one reset is scheduled once n reaches a rack.
   */
  method FallenPins(n: nat) returns (score: int, resets: int)
    ensures score == 10 * n
    ensures resets == (if n >= TotalPins then 1 else 0)
  {
    var m := new BowlingGameManager();
    resets := 0;
    for i := 0 to n
      invariant m.Valid() && m.Orderly()
      invariant m.fallenPinsCount == i && m.currentScore == 10 * i
      invariant m.isResetting <==> i >= TotalPins
      invariant resets == (if i >= TotalPins then 1 else 0)
    {
      var scheduled := m.PinFell();
      if scheduled {
        resets := resets + 1;
      }
    }
    score := m.currentScore;
  }

  /**
   * A manual reset while a reset is pending lets a second rack schedule a
   * second reset before the first has run: two resets are then pending at once.
   */
  method ManualResetDoublesPending() returns (scheduledResets: int)
    ensures scheduledResets == 2
  {
    var m := new BowlingGameManager();
    scheduledResets := 0;
    for i := 0 to TotalPins
      invariant m.Valid() && m.Orderly() && m.fallenPinsCount == i
      invariant m.isResetting <==> i >= TotalPins
      invariant scheduledResets == m.pendingResets
    {
      var scheduled := m.PinFell();
      if scheduled {
        scheduledResets := scheduledResets + 1;
      }
    }
    m.ManualReset();
    for i := 0 to TotalPins
      invariant m.Valid() && m.fallenPinsCount == i
      invariant m.isResetting <==> i >= TotalPins
      invariant m.pendingResets == (if i >= TotalPins then 2 else 1)
      invariant scheduledResets == m.pendingResets
    {
      var scheduled := m.PinFell();
      if scheduled {
        scheduledResets := scheduledResets + 1;
      }
    }
  }
}
