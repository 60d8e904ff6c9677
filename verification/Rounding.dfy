/** Money is rounded once, half up, to two places; what that costs the displayed figures. */
module Rounding {
  /** An amount in whole paise, rounded to nearest with halves away from zero. */
  function Paise(amount: real): int {
    if amount >= 0.0 then (amount * 100.0 + 0.5).Floor else -((-amount * 100.0 + 0.5).Floor)
  }

  function Money(amount: real): real { Paise(amount) as real / 100.0 }

  /** The nearest paisa, halves away from zero on either side. */
  lemma RoundsHalfAway(amount: real, paise: int)
    requires amount >= 0.0
    ensures Paise(amount) == paise <==> paise as real - 0.5 <= amount * 100.0 < paise as real + 0.5
    ensures Paise(-amount) == -Paise(amount)
  {
    var scaled := amount * 100.0 + 0.5;
    assert scaled.Floor == paise <==> paise as real <= scaled < (paise + 1) as real;
  }

  lemma WithinHalf(amount: real)
    ensures amount * 100.0 - 0.5 <= Paise(amount) as real <= amount * 100.0 + 0.5
  {
  }

  /** The six exposure buckets of one head, at full precision. */
  datatype Six = Six(
    committed: real, receivedNotBilled: real, awaitingCertification: real,
    certifiedPayable: real, approved: real, paid: real)

  function Whole(b: Six): real {
    b.committed + b.receivedNotBilled + b.awaitingCertification + b.certifiedPayable + b.approved + b.paid
  }

  /** The displayed buckets, each rounded on its own. */
  function Displayed(b: Six): int {
    Paise(b.committed) + Paise(b.receivedNotBilled) + Paise(b.awaitingCertification) +
    Paise(b.certifiedPayable) + Paise(b.approved) + Paise(b.paid)
  }

  function Gap(b: Six): int { Displayed(b) - Paise(Whole(b)) }

  /** The displayed buckets are within three paise of the displayed exposure. */
  lemma BucketsWithinThreePaise(b: Six)
    ensures -3 <= Gap(b) <= 3
  {
    WithinHalf(b.committed);
    WithinHalf(b.receivedNotBilled);
    WithinHalf(b.awaitingCertification);
    WithinHalf(b.certifiedPayable);
    WithinHalf(b.approved);
    WithinHalf(b.paid);
    WithinHalf(Whole(b));
  }

  /** Three is reached: six buckets of half a paisa each display six paise of a three-paise whole. */
  lemma ThreePaiseIsReached()
    ensures Gap(Six(0.005, 0.005, 0.005, 0.005, 0.005, 0.005)) == 3
  {
  }

  function Rows(heads: seq<Six>): int {
    if |heads| == 0 then 0 else Rows(heads[..|heads| - 1]) + Displayed(heads[|heads| - 1])
  }

  function Exposures(heads: seq<Six>): int {
    if |heads| == 0 then 0 else Exposures(heads[..|heads| - 1]) + Paise(Whole(heads[|heads| - 1]))
  }

  /** The project roll-up adds displayed figures, so its six totals are within three paise a head of
      its exposure total. */
  lemma {:induction false} TotalsWithinThreeAHead(heads: seq<Six>)
    ensures -3 * |heads| <= Rows(heads) - Exposures(heads) <= 3 * |heads|
  {
    if |heads| > 0 {
      TotalsWithinThreeAHead(heads[..|heads| - 1]);
      BucketsWithinThreePaise(heads[|heads| - 1]);
    }
  }

  /** Headroom is the budget less the one rounded exposure; a budget is whole paise. */
  function Headroom(budget: int, b: Six): real { budget as real / 100.0 - Money(Whole(b)) }

  /** A breach is decided once, on the exact sum: the headroom is negative exactly when exposure is
      over the budget by half a paisa or more, however the buckets round. */
  lemma BreachExactly(budget: nat, b: Six)
    requires Whole(b) >= 0.0
    ensures Headroom(budget, b) < 0.0 <==> Whole(b) >= (budget as real + 0.5) / 100.0
  {
    var scaled := Whole(b) * 100.0 + 0.5;
    assert scaled.Floor > budget <==> scaled >= (budget + 1) as real;
  }

  /** Deciding on the displayed buckets instead would report a breach that is not there. */
  lemma DisplayedBucketsWouldBreach()
    ensures Headroom(3, Six(0.005, 0.005, 0.005, 0.005, 0.005, 0.005)) == 0.0
    ensures Displayed(Six(0.005, 0.005, 0.005, 0.005, 0.005, 0.005)) > 3
  {
  }
}
