/** The gamble: one uniform draw in [0, 1) decides a 10x jackpot, a 2x success, or a loss that an
    active xenon shield turns into break-even. */
module Wager {

  datatype GambleOutcome = Rejected | Jackpot | Success | Shielded | Failed

  const JackpotBelow: real := 0.05
  const SuccessBelow: real := 0.45

  function Resolve(roll: real, shield: bool): (o: GambleOutcome)
    ensures o != Rejected
    ensures o == Shielded ==> shield
  {
    if roll < JackpotBelow then Jackpot
    else if roll < SuccessBelow then Success
    else if shield then Shielded
    else Failed
  }

  /** What is credited back after the stake has been debited. */
  function Payout(stake: nat, o: GambleOutcome): (r: nat)
    ensures r <= 10 * stake
    ensures o == Rejected || o == Failed ==> r == 0
    ensures o == Jackpot || o == Success ==> r >= 2 * stake
    ensures o == Shielded ==> r == stake
  {
    match o
    case Jackpot => stake * 10
    case Success => stake * 2
    case Shielded => stake
    case _ => 0
  }

  /** Net effect of a resolved gamble on the balance: +9x, +1x, 0 (shielded) or -1x the stake; a
      shield changes the result only on a losing draw and then turns the loss into break-even. */
  lemma NetEffect(stake: nat, roll: real, shield: bool)
    ensures Payout(stake, Resolve(roll, shield)) as int - stake ==
            if roll < JackpotBelow then 9 * stake as int
            else if roll < SuccessBelow then stake as int
            else if shield then 0
            else -(stake as int)
    ensures Resolve(roll, true) != Resolve(roll, false) <==> roll >= SuccessBelow
  {
  }

  /** The outcome bands partition [0, 1) into widths 0.05 (jackpot), 0.40 (success) and 0.55 (loss or
      shielded), the intended outcome distribution of a uniform draw. */
  lemma OutcomeBands(roll: real, shield: bool)
    requires 0.0 <= roll < 1.0
    ensures Resolve(roll, shield) == Jackpot <==> 0.0 <= roll < JackpotBelow
    ensures Resolve(roll, shield) == Success <==> JackpotBelow <= roll < SuccessBelow
    ensures Resolve(roll, shield) in {Shielded, Failed} <==> SuccessBelow <= roll < 1.0
    ensures JackpotBelow - 0.0 == 0.05 && SuccessBelow - JackpotBelow == 0.40 && 1.0 - SuccessBelow == 0.55
  {
  }
}
