/** The transaction lifecycle as an explicit transition table. */
module Lifecycle {

  datatype TxnStatus = Initiated | Authorized | Captured | Settled | Failed | Refunded

  /** The table: terminal states map to the empty set. */
  const ALLOWED: map<TxnStatus, set<TxnStatus>> := map[
    Initiated := {Authorized, Failed},
    Authorized := {Captured, Failed},
    Captured := {Settled, Refunded},
    Settled := {},
    Failed := {},
    Refunded := {}
  ]

  predicate CanTransition(from: TxnStatus, to: TxnStatus) {
    from in ALLOWED && to in ALLOWED[from]
  }

  predicate IsTerminal(s: TxnStatus) {
    s in ALLOWED && ALLOWED[s] == {}
  }

  /** A status history: it begins in Initiated and every move is in the table. */
  ghost predicate IsHistory(trail: seq<TxnStatus>) {
    && 0 < |trail|
    && trail[0] == Initiated
    && forall k :: 0 < k < |trail| ==> CanTransition(trail[k - 1], trail[k])
  }

  /** How many moves a status is away from Initiated on its longest history. */
  function Rank(s: TxnStatus): nat {
    match s
    case Initiated => 0
    case Authorized => 1
    case Captured | Failed => 2
    case Settled | Refunded => 3
  }

  /** Every legal move climbs the rank, so nothing is ever revisited. */
  lemma TransitionsClimb(from: TxnStatus, to: TxnStatus)
    requires CanTransition(from, to)
    ensures Rank(from) < Rank(to) && !IsTerminal(from)
  {
    assert to in ALLOWED[from];
  }

  /** Exactly which moves there are. */
  lemma MovesAre(from: TxnStatus, to: TxnStatus)
    ensures CanTransition(from, to) <==>
      || (from == Initiated && to == Authorized)
      || (from == Authorized && to == Captured)
      || (from == Captured && (to == Settled || to == Refunded))
      || ((from == Initiated || from == Authorized) && to == Failed)
  {
    assert to in ALLOWED[from] <==> CanTransition(from, to);
  }

  /** Nothing is captured that was not authorized, nothing settled or refunded that was not captured, and nothing
      fails after its capture. */
  lemma NothingIsSkipped(trail: seq<TxnStatus>, k: nat)
    requires IsHistory(trail) && k < |trail|
    ensures trail[k] == Initiated <==> k == 0
    ensures trail[k] == Captured ==> k == 2 && trail[..k + 1] == [Initiated, Authorized, Captured]
    ensures trail[k] in {Settled, Refunded} ==> k == 3 && trail[..k] == [Initiated, Authorized, Captured]
    ensures trail[k] == Failed ==> Captured !in trail
  {
    HistoryIsShort(trail);
    assert forall j :: 0 < j < |trail| ==> CanTransition(trail[j - 1], trail[j]);
    if k > 0 {
      MovesAre(trail[k - 1], trail[k]);
    }
    if k > 1 {
      MovesAre(trail[k - 2], trail[k - 1]);
    }
    if k > 2 {
      MovesAre(trail[k - 3], trail[k - 2]);
    }
    if trail[k] == Failed {
      TerminalHasNoExit(Failed);
    }
  }

  /** A terminal status is one that no move leaves. */
  lemma TerminalHasNoExit(s: TxnStatus)
    ensures IsTerminal(s) <==> forall to :: !CanTransition(s, to)
    ensures IsTerminal(s) <==> s in {Settled, Failed, Refunded}
  {
    var next := if s == Initiated then Authorized else if s == Authorized then Captured else Settled;
    assert !IsTerminal(s) ==> CanTransition(s, next);
  }

  /** In any history the position of a status is bounded by its rank, so no history makes more
      than three moves, and no status occurs twice. */
  lemma {:induction false} HistoryClimbs(trail: seq<TxnStatus>, i: nat, j: nat)
    requires IsHistory(trail)
    requires i <= j < |trail|
    ensures Rank(trail[i]) + (j - i) <= Rank(trail[j])
    decreases j - i
  {
    if i < j {
      HistoryClimbs(trail, i, j - 1);
      TransitionsClimb(trail[j - 1], trail[j]);
    }
  }

  lemma HistoryIsShort(trail: seq<TxnStatus>)
    requires IsHistory(trail)
    ensures |trail| <= 4
    ensures forall i, j :: 0 <= i < j < |trail| ==> trail[i] != trail[j]
    ensures forall k :: 0 <= k < |trail| - 1 ==> !IsTerminal(trail[k])
  {
    HistoryClimbs(trail, 0, |trail| - 1);
    forall i, j | 0 <= i < j < |trail|
      ensures trail[i] != trail[j]
    {
      HistoryClimbs(trail, i, j);
    }
    forall k | 0 <= k < |trail| - 1
      ensures !IsTerminal(trail[k])
    {
      TransitionsClimb(trail[k], trail[k + 1]);
    }
  }

  /** One gated status change: an illegal target leaves the history as it is. */
  function Advance(trail: seq<TxnStatus>, to: TxnStatus): (r: seq<TxnStatus>)
    requires 0 < |trail|
    ensures 0 < |r|
  {
    if CanTransition(trail[|trail| - 1], to) then trail + [to] else trail
  }

  lemma AdvanceKeepsHistory(trail: seq<TxnStatus>, to: TxnStatus)
    requires IsHistory(trail)
    ensures IsHistory(Advance(trail, to))
    ensures trail <= Advance(trail, to)
  {
  }
}
