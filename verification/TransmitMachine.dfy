/** The LACP transmit machine: a bucket that limits how many LACPDUs leave a port. */
module TransmitMachine {

  const MAX_TRANSMISSIONS_IN_SHORT_PERIOD: nat := 3

  /** A need-to-transmit request, with the servicer's answer to `transmit`, or a replenish tick. */
  datatype TxEvent = NeedToTransmit(accepted: bool) | Replenish

  function Next(left: nat, e: TxEvent): nat
  {
    match e
    case Replenish =>
      if left + 1 <= MAX_TRANSMISSIONS_IN_SHORT_PERIOD then left + 1 else MAX_TRANSMISSIONS_IN_SHORT_PERIOD
    case NeedToTransmit(accepted) => if left > 0 && accepted then left - 1 else left
  }

  /** Transmissions left after a history of events. */
  function Level(es: seq<TxEvent>): nat
  {
    if es == [] then MAX_TRANSMISSIONS_IN_SHORT_PERIOD
    else Next(Level(es[..|es| - 1]), es[|es| - 1])
  }

  predicate Sends(es: seq<TxEvent>, k: nat)
    requires k < |es|
  {
    es[k].NeedToTransmit? && es[k].accepted && Level(es[..k]) > 0
  }

  /** LACPDUs transmitted by the events `i..j` of the history. */
  function Sent(es: seq<TxEvent>, i: nat, j: nat): nat
    requires i <= j <= |es|
    decreases j
  {
    if i == j then 0 else Sent(es, i, j - 1) + if Sends(es, j - 1) then 1 else 0
  }

  function Ticks(es: seq<TxEvent>, i: nat, j: nat): nat
    requires i <= j <= |es|
    decreases j
  {
    if i == j then 0 else Ticks(es, i, j - 1) + if es[j - 1].Replenish? then 1 else 0
  }

  lemma LevelStep(es: seq<TxEvent>, j: nat)
    requires 0 < j <= |es|
    ensures Level(es[..j]) == Next(Level(es[..j - 1]), es[j - 1])
  {
    assert es[..j][..j - 1] == es[..j - 1];
  }

  lemma {:induction false} LevelInRange(es: seq<TxEvent>, j: nat)
    requires j <= |es|
    ensures Level(es[..j]) <= 3
  {
    if j > 0 {
      LevelInRange(es, j - 1);
      LevelStep(es, j);
    }
  }

  /** Conservation over a segment: nothing is sent that was not in the bucket or replenished. */
  lemma {:induction false} SegmentBudget(es: seq<TxEvent>, i: nat, j: nat)
    requires i <= j <= |es|
    ensures Sent(es, i, j) + Level(es[..j]) <= Level(es[..i]) + Ticks(es, i, j)
    decreases j
  {
    if i < j {
      SegmentBudget(es, i, j - 1);
      LevelStep(es, j);
    }
  }

  /** Any contiguous segment of any history with n replenish ticks has at most 3 + n
      transmissions. */
  lemma TransmissionBound(es: seq<TxEvent>, i: nat, j: nat)
    requires i <= j <= |es|
    ensures Sent(es, i, j) <= 3 + Ticks(es, i, j)
  {
    SegmentBudget(es, i, j);
    LevelInRange(es, i);
  }

  /** The bucket is no stricter than the bound: some segment ending now uses all of it but for
      what is left in the bucket. */
  lemma {:induction false} BoundIsTight(es: seq<TxEvent>, j: nat) returns (i: nat)
    requires j <= |es|
    ensures i <= j
    ensures Sent(es, i, j) + Level(es[..j]) == 3 + Ticks(es, i, j)
  {
    if j == 0 {
      i := 0;
    } else {
      i := BoundIsTight(es, j - 1);
      LevelStep(es, j);
      LevelInRange(es, j - 1);
      if es[j - 1].Replenish? && Level(es[..j - 1]) == MAX_TRANSMISSIONS_IN_SHORT_PERIOD {
        i := j;
      }
    }
  }

  /** A request the servicer would accept is skipped exactly when sending it would break the
      bound on some segment. */
  lemma SkippedOnlyAtTheBound(es: seq<TxEvent>, k: nat)
    requires k < |es| && es[k] == NeedToTransmit(true)
    ensures !Sends(es, k) <==>
            exists i: nat :: i <= k && Sent(es, i, k) == 3 + Ticks(es, i, k)
  {
    if !Sends(es, k) {
      var i := BoundIsTight(es, k);
    }
    forall i: nat | i <= k && Sent(es, i, k) == 3 + Ticks(es, i, k)
      ensures !Sends(es, k)
    {
      SegmentBudget(es, i, k);
      LevelInRange(es, i);
    }
  }

  class Transmitter {
    var transmissionsLeft: nat
    ghost var history: seq<TxEvent>

    ghost predicate Valid()
      reads this
    {
      transmissionsLeft == Level(history)
    }

    constructor ()
      ensures Valid() && history == []
    {
      transmissionsLeft := MAX_TRANSMISSIONS_IN_SHORT_PERIOD;
      history := [];
    }

    /** `ntt`: `accepted` is what the servicer's `transmit` would answer. */
    method Ntt(accepted: bool) returns (sent: bool)
      requires Valid()
      modifies this
      ensures Valid() && history == old(history) + [NeedToTransmit(accepted)]
      ensures sent == Sends(history, |old(history)|)
    {
      history := history + [NeedToTransmit(accepted)];
      LevelStep(history, |history|);
      assert history[..|old(history)|] == old(history) && history[..|history|] == history;
      if transmissionsLeft == 0 { return false; }
      if !accepted { return false; }
      transmissionsLeft := transmissionsLeft - 1;
      return true;
    }

    /** `replenishTranmissionsLeft`. */
    method ReplenishTransmissionsLeft()
      requires Valid()
      modifies this
      ensures Valid() && history == old(history) + [Replenish]
    {
      history := history + [Replenish];
      LevelStep(history, |history|);
      assert history[..|old(history)|] == old(history) && history[..|history|] == history;
      transmissionsLeft := if transmissionsLeft + 1 <= MAX_TRANSMISSIONS_IN_SHORT_PERIOD
                           then transmissionsLeft + 1 else MAX_TRANSMISSIONS_IN_SHORT_PERIOD;
    }
  }
}
