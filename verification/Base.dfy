/** Identifiers, log entries and small helpers shared by every module. */
module Base {

  type NodeId = nat

  /** The ids listed, without order or repetition. */
  function SetOf(ids: seq<NodeId>): set<NodeId> {
    set v | v in ids
  }

  datatype Option<+T> = None | Some(value: T)

  /** Payload of a log entry: an application command or a leader's no-op. */
  datatype Payload = Command(bytes: seq<bv8>) | NoOp

  /** One entry of the replicated log; indices start at 1. */
  datatype Entry = Entry(index: nat, term: nat, payload: Payload)

  /** Term of the entry at 1-based index `k`; 0 before the first entry and past the end. */
  function TermAt(log: seq<Entry>, k: nat): nat {
    if 1 <= k <= |log| then log[k - 1].term else 0
  }

  /** Term of the last entry, or 0 for an empty log. */
  function LastTerm(log: seq<Entry>): nat {
    if |log| == 0 then 0 else log[|log| - 1].term
  }

  /** Every entry carries its own 1-based position. */
  predicate Indexed(log: seq<Entry>) {
    forall i :: 0 <= i < |log| ==> log[i].index == i + 1
  }

  /** Terms never fall along the log. */
  predicate TermsRise(log: seq<Entry>) {
    forall i, j :: 0 <= i < j < |log| ==> log[i].term <= log[j].term
  }

  /** The first `k` entries of `a` and of `b` exist and are the same. */
  predicate Agree(a: seq<Entry>, b: seq<Entry>, k: nat) {
    k <= |a| && k <= |b| && a[..k] == b[..k]
  }

  lemma AgreeShorter(a: seq<Entry>, b: seq<Entry>, k: nat, j: nat)
    requires Agree(a, b, k) && j <= k
    ensures Agree(a, b, j)
  {
    assert a[..j] == a[..k][..j] && b[..j] == b[..k][..j];
  }

  lemma AgreeAt(a: seq<Entry>, b: seq<Entry>, k: nat, i: nat)
    requires Agree(a, b, k) && i < k
    ensures a[i] == b[i]
  {
    assert a[i] == a[..k][i] && b[i] == b[..k][i];
  }
}
