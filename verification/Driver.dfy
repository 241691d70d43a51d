/**
 The driver around one engine: it owns the durable log, executes actions in
 order and answers fetches. Log compaction is not modelled here, so a log always
 starts at index 1 and an entry's index is its position.
 */
module Driver {
  import opened Base
  import opened Messages
  import opened Engine

  /** An engine with its durable log and the entries handed to its state machine since it started. */
  datatype Server = Server(node: Node, log: seq<Entry>, applied: seq<Entry>)

  // ------------------------------------------------------------------
  // Executing actions
  // ------------------------------------------------------------------

  function Perform(sv: Server, a: Action): Server {
    match a
    case AppendEntries(entries) => sv.(log := sv.log + entries)
    case TruncateLog(SuffixFromInclusive(from)) =>
      var log := if 1 <= from <= |sv.log| then sv.log[..from - 1] else if from == 0 then [] else sv.log;
      sv.(log := log, node := SetLastLog(sv.node, |log|, LastTerm(log)))
    case ApplyToStateMachine(from, to) =>
      if 1 <= from <= to + 1 && to <= |sv.log| then sv.(applied := sv.applied + sv.log[from - 1..to]) else sv
    case _ => sv
  }

  function Execute(sv: Server, actions: seq<Action>): Server
    decreases |actions|
  {
    if actions == [] then sv else Execute(Perform(sv, actions[0]), actions[1..])
  }

  lemma {:induction false} ExecuteAppend(sv: Server, a: seq<Action>, b: seq<Action>)
    ensures Execute(sv, a + b) == Execute(Execute(sv, a), b)
    decreases |a|
  {
    if a == [] {
      assert a + b == b;
    } else {
      assert (a + b)[1..] == a[1..] + b;
      ExecuteAppend(Perform(sv, a[0]), a[1..], b);
    }
  }

  lemma ExecuteTwo(sv: Server, a: Action, b: Action)
    ensures Execute(sv, [a, b]) == Perform(Perform(sv, a), b)
  {
    assert [a, b][1..] == [b] && [b][1..] == [];
    assert Execute(Perform(sv, a), [b]) == Execute(Perform(Perform(sv, a), b), []);
  }

  /** Actions that leave the durable log and the state machine alone. */
  predicate Harmless(a: Action) {
    !a.AppendEntries? && !a.TruncateLog? && !a.ApplyToStateMachine?
  }

  lemma {:induction false} ExecuteHarmless(sv: Server, actions: seq<Action>)
    requires forall a :: a in actions ==> Harmless(a)
    ensures Execute(sv, actions) == sv
  {
    if actions != [] {
      assert actions[0] in actions;
      ExecuteHarmless(sv, actions[1..]);
    }
  }

  // ------------------------------------------------------------------
  // Epoch lookup
  // ------------------------------------------------------------------

  predicate HasEpoch(log: seq<Entry>, epoch: nat) {
    exists i :: 0 <= i < |log| && log[i].term == epoch
  }

  /** Index of the first entry of `epoch`, or 0. */
  function EpochStart(log: seq<Entry>, epoch: nat): nat {
    if log == [] then 0 else if log[0].term == epoch then log[0].index else EpochStart(log[1..], epoch)
  }

  /** The smallest epoch in the log above `epoch`. */
  function EpochAfter(log: seq<Entry>, epoch: nat): Option<nat> {
    if log == [] then None
    else
      var rest := EpochAfter(log[1..], epoch);
      if log[0].term > epoch && (rest.None? || log[0].term < rest.value) then Some(log[0].term) else rest
  }

  /** Last index of `epoch` in the log, found through the epoch checkpoint; `None` if the epoch never occurs. */
  function EndOffsetForEpoch(log: seq<Entry>, epoch: nat): Option<nat> {
    if !HasEpoch(log, epoch) then None
    else
      var next := EpochAfter(log, epoch);
      if next.None? then Some(|log|)
      else
        var start := EpochStart(log, next.value);
        Some(if start == 0 then 0 else start - 1)
  }

  // ------------------------------------------------------------------
  // Answering fetches
  // ------------------------------------------------------------------

  /** The divergence reported for a follower whose claimed tail is not in `log`. */
  function Divergence(log: seq<Entry>, prev: nat, epoch: nat): DivergingEpoch {
    var precise := EndOffsetForEpoch(log, epoch);
    if precise.Some? then DivergingEpoch(epoch, precise.value)
    else DivergingEpoch(Max(LastTerm(log), TermAt(log, prev)), |log|)
  }

  /** The follower's claim `(prev, epoch)` is contradicted by `log`. */
  predicate Diverges(log: seq<Entry>, prev: nat, epoch: nat) {
    prev >= 1 && (prev > |log| || log[prev - 1].term != epoch)
  }

  /** At most `batch` entries from `from` on. */
  function GetRange(log: seq<Entry>, from: nat, batch: nat): seq<Entry> {
    if 1 <= from <= |log| then log[from - 1..Min(|log|, from - 1 + batch)] else []
  }

  /** The answer to a served fetch. */
  function MaterializeFetchResponse(log: seq<Entry>, a: Action, batch: nat): FetchResponse
    requires a.ServeFetch?
  {
    var prev := if a.fetchOffset == 0 then 0 else a.fetchOffset - 1;
    var d := Diverges(log, prev, a.lastFetchedEpoch);
    FetchResponse(a.clusterId, a.leaderEpoch, a.leaderId, a.highWatermark,
                  if d then [] else GetRange(log, a.fetchOffset, batch),
                  if d then Some(Divergence(log, prev, a.lastFetchedEpoch)) else None,
                  None, true)
  }
}
