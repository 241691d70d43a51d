/**
 Applying and compacting over every run of one engine: what reaches the state
 machine, and which snapshots are taken and acted on.
 */
module EngineApply {
  import opened Base
  import opened Messages
  import opened Engine
  import opened EngineRuns
  import opened EngineCommit

  // ------------------------------------------------------------------
  // Apply ranges
  // ------------------------------------------------------------------

  /** The log indices from `first` to `last`. */
  datatype Span = Span(first: nat, last: nat)

  function Spans(actions: seq<Action>): seq<Span> {
    if actions == [] then []
    else (if actions[0].ApplyToStateMachine? then [Span(actions[0].fromIndex, actions[0].toIndex)] else [])
         + Spans(actions[1..])
  }

  /**
    What one move brings into the state machine: apply ranges in order, or the part of an installed
    snapshot that is new.
   */
  function Brought(n: Node, move: Move): seq<Span> {
    if move.Feed? && move.input.SnapshotInstalled? then
      var through := move.input.metadata.lastIncludedIndex;
      if through > n.lastApplied then [Span(n.lastApplied + 1, through)] else []
    else Spans(Moved(n, move).actions)
  }

  /** Everything brought in by the first `i` moves. */
  function Ledger(nodes: seq<Node>, moves: seq<Move>, i: nat): seq<Span>
    requires |nodes| == |moves| + 1 && i <= |moves|
  {
    if i == 0 then [] else Ledger(nodes, moves, i - 1) + Brought(nodes[i - 1], moves[i - 1])
  }

  /** The spans follow one another from `a + 1` to `b` without gap or repeat. */
  predicate Chain(a: nat, spans: seq<Span>, b: nat)
    decreases |spans|
  {
    if spans == [] then a == b
    else spans[0].first == a + 1 && spans[0].last > a && Chain(spans[0].last, spans[1..], b)
  }

  lemma {:induction false} ChainAppend(a: nat, s: seq<Span>, b: nat, t: seq<Span>, c: nat)
    requires Chain(a, s, b) && Chain(b, t, c)
    ensures Chain(a, s + t, c)
    decreases |s|
  {
    if s == [] {
      assert s + t == t;
    } else {
      assert (s + t)[1..] == s[1..] + t;
      ChainAppend(s[0].last, s[1..], b, t, c);
    }
  }

  lemma {:induction false} SpansAppend(a: seq<Action>, b: seq<Action>)
    ensures Spans(a + b) == Spans(a) + Spans(b)
  {
    if a == [] {
      assert a + b == b;
    } else {
      var rest := a[1..];
      assert (a + b)[1..] == rest + b;
      SpansAppend(rest, b);
      var first := if a[0].ApplyToStateMachine? then [Span(a[0].fromIndex, a[0].toIndex)] else [];
      assert first + (Spans(rest) + Spans(b)) == (first + Spans(rest)) + Spans(b);
    }
  }

  lemma {:induction false} TameSpans(actions: seq<Action>)
    requires forall a :: a in actions ==> !a.ApplyToStateMachine?
    ensures Spans(actions) == []
  {
    if actions != [] {
      assert actions[0] in actions;
      TameSpans(actions[1..]);
    }
  }

  lemma DrainChain(n: Node)
    ensures Chain(n.lastApplied, Spans(DrainApplyPipeline(n).actions), DrainApplyPipeline(n).node.lastApplied)
  {
    var a := MaybeApply(n);
    var b := MaybeTakeSnapshot(a.node);
    SpansAppend(a.actions, b.actions);
    TameSpans(b.actions);
  }

  lemma PoursChain(n: Node, o: Out)
    requires Pours(n, o)
    ensures Chain(n.lastApplied, Spans(o.actions), o.node.lastApplied)
  {
    hide DrainApplyPipeline, Onward;
    if Calm(n, o) {
      TameSpans(o.actions);
    } else {
      var m, pre, c: nat :| Poured(n, m, pre, c, o);
      TameSpans(pre);
      DrainChain(m.(commitIndex := c));
      SpansAppend(pre, DrainApplyPipeline(m.(commitIndex := c)).actions);
      assert Spans(o.actions) == Spans(DrainApplyPipeline(m.(commitIndex := c)).actions);
    }
  }

  lemma MoveChain(n: Node, move: Move)
    ensures Chain(n.lastApplied, Brought(n, move), Moved(n, move).node.lastApplied)
  {
    hide Pours, Onward;
    if move.Feed? {
      if move.input.SnapshotInstalled? || move.input.SnapshotComplete? {
        TameSpans(Moved(n, move).actions);
      } else {
        hide Step;
        StepPours(n, move.input, move.draw);
        PoursChain(n, Step(n, move.input, move.draw));
      }
    }
  }

  /** In every run, apply ranges and installed snapshots cover what was applied, in order, with no gap and no repeat. */
  lemma {:induction false} AppliedInOrder(nodes: seq<Node>, moves: seq<Move>, i: nat)
    requires Trace(nodes, moves) && i <= |moves|
    ensures Chain(nodes[0].lastApplied, Ledger(nodes, moves, i), nodes[i].lastApplied)
  {
    hide Moved, Brought;
    if i > 0 {
      AppliedInOrder(nodes, moves, i - 1);
      assert nodes[i - 1 + 1] == Moved(nodes[i - 1], moves[i - 1]).node;
      MoveChain(nodes[i - 1], moves[i - 1]);
      ChainAppend(nodes[0].lastApplied, Ledger(nodes, moves, i - 1), nodes[i - 1].lastApplied,
                  Brought(nodes[i - 1], moves[i - 1]), nodes[i].lastApplied);
    }
  }

  predicate InSpan(s: Span, k: nat) {
    s.first <= k <= s.last
  }

  /** A chain from `a` to `b` covers exactly the indices above `a` up to `b`, each once. */
  lemma {:induction false} ChainCovers(a: nat, spans: seq<Span>, b: nat, k: nat)
    requires Chain(a, spans, b)
    ensures a <= b
    ensures a < k <= b <==> exists i :: 0 <= i < |spans| && InSpan(spans[i], k)
    ensures forall i, j :: 0 <= i < j < |spans| ==> !(InSpan(spans[i], k) && InSpan(spans[j], k))
    decreases |spans|
  {
    if spans != [] {
      var rest := spans[1..];
      ChainCovers(spans[0].last, rest, b, k);
      assert InSpan(spans[0], k) <==> a < k <= spans[0].last;
      assert forall i :: 1 <= i < |spans| ==> spans[i] == rest[i - 1];
      if i :| 0 <= i < |rest| && InSpan(rest[i], k) {
        assert InSpan(spans[i + 1], k);
      }
    }
  }

  // ------------------------------------------------------------------
  // Commit and apply never fall
  // ------------------------------------------------------------------

  lemma MoveRises(n: Node, move: Move)
    ensures n.commitIndex <= Moved(n, move).node.commitIndex && n.lastApplied <= Moved(n, move).node.lastApplied
  {
    hide Onward, Pours;
    if move.Feed? && !move.input.SnapshotInstalled? && !move.input.SnapshotComplete? {
      hide Step;
      StepPours(n, move.input, move.draw);
      PoursRises(n, Step(n, move.input, move.draw));
    }
  }

  lemma PoursRises(n: Node, o: Out)
    requires Pours(n, o)
    ensures n.commitIndex <= o.node.commitIndex && n.lastApplied <= o.node.lastApplied
  {
    hide Onward, DrainApplyPipeline;
    if !Calm(n, o) {
      var m, pre, c: nat :| Poured(n, m, pre, c, o);
      DrainFields(m.(commitIndex := c));
    }
  }

  /** Over every run neither the commit index nor the applied index falls. */
  lemma {:induction false} CommitNeverFalls(nodes: seq<Node>, moves: seq<Move>, i: nat, j: nat)
    requires Trace(nodes, moves) && i <= j < |nodes|
    ensures nodes[i].commitIndex <= nodes[j].commitIndex && nodes[i].lastApplied <= nodes[j].lastApplied
    decreases j
  {
    hide Moved;
    if i < j {
      CommitNeverFalls(nodes, moves, i, j - 1);
      assert nodes[j - 1 + 1] == Moved(nodes[j - 1], moves[j - 1]).node;
      MoveRises(nodes[j - 1], moves[j - 1]);
    }
  }

  // ------------------------------------------------------------------
  // Snapshots
  // ------------------------------------------------------------------

  /** The move asks for a snapshot through `k`. */
  ghost predicate Asks(n: Node, move: Move, k: nat) {
    TakeSnapshot(k) in Moved(n, move).actions
  }

  /** The move asks to drop the log prefix through `k`. */
  ghost predicate Cuts(n: Node, move: Move, k: nat) {
    TruncateLog(PrefixThroughInclusive(k)) in Moved(n, move).actions
  }

  predicate Confirms(move: Move) {
    move.Feed? && (move.input.SnapshotComplete? || move.input.SnapshotInstalled?)
  }

  /**
    What an ordinary move does to snapshots: it may ask for one, through what it has just applied,
    if none is outstanding.
   */
  ghost predicate Snaps(n: Node, o: Out) {
    && o.node.lastSnapshotMeta == n.lastSnapshotMeta && (n.snapshotInFlight ==> o.node.snapshotInFlight)
    && (forall k: nat :: TruncateLog(PrefixThroughInclusive(k)) !in o.actions)
    && (forall k: nat :: TakeSnapshot(k) in o.actions ==>
          !n.snapshotInFlight && o.node.snapshotInFlight && k == o.node.commitIndex && k <= o.node.lastApplied)
    && (forall a :: a in o.actions ==> ServedPast(n.lastSnapshotMeta, a))
  }

  lemma DrainSnaps(n: Node)
    ensures Snaps(n, DrainApplyPipeline(n))
  {
  }

  lemma PoursSnaps(n: Node, o: Out)
    requires Pours(n, o)
    ensures Snaps(n, o)
  {
    hide Onward, DrainApplyPipeline;
    if !Calm(n, o) {
      var m, pre, c: nat :| Poured(n, m, pre, c, o);
      DrainSnaps(m.(commitIndex := c));
      var d := DrainApplyPipeline(m.(commitIndex := c));
      assert forall a :: a in o.actions <==> a in pre || a in d.actions;
    }
  }

  lemma MoveSnaps(n: Node, move: Move)
    requires !Confirms(move)
    ensures Snaps(n, Moved(n, move))
  {
    hide Onward, Pours, Step;
    if move.Feed? {
      StepPours(n, move.input, move.draw);
      PoursSnaps(n, Step(n, move.input, move.draw));
    }
  }

  /** A snapshot is asked for only while none is outstanding, and covers exactly what has been applied. */
  lemma SnapshotCoversApplied(nodes: seq<Node>, moves: seq<Move>, cfg: Config, draw: nat, i: nat, k: nat)
    requires RespectfulTrace(nodes, moves, cfg, draw) && i < |moves| && Asks(nodes[i], moves[i], k)
    ensures k == nodes[i + 1].lastApplied && !nodes[i].snapshotInFlight && nodes[i + 1].snapshotInFlight
  {
    hide Sound, Step;
    AlwaysOrdered(nodes, moves, cfg, draw, i + 1);
    assert nodes[i + 1] == Moved(nodes[i], moves[i]).node;
    if Confirms(moves[i]) {
      ConfirmAsksNothing(nodes[i], moves[i], k);
    } else {
      MoveSnaps(nodes[i], moves[i]);
    }
  }

  lemma ConfirmAsksNothing(n: Node, move: Move, k: nat)
    requires Confirms(move)
    ensures !Asks(n, move, k)
  {
  }

  lemma {:induction false} StaysOutstanding(nodes: seq<Node>, moves: seq<Move>, i: nat, j: nat)
    requires Trace(nodes, moves) && i <= j < |nodes| && nodes[i].snapshotInFlight
    requires forall k :: i <= k < j ==> !Confirms(moves[k])
    ensures nodes[j].snapshotInFlight
    decreases j
  {
    hide Moved;
    if i < j {
      StaysOutstanding(nodes, moves, i, j - 1);
      assert nodes[j - 1 + 1] == Moved(nodes[j - 1], moves[j - 1]).node;
      MoveSnaps(nodes[j - 1], moves[j - 1]);
    }
  }

  /** Between two requests for a snapshot there is a confirmation: at most one is outstanding. */
  lemma OneSnapshotOutstanding(nodes: seq<Node>, moves: seq<Move>, i: nat, j: nat, k: nat, l: nat)
    requires Trace(nodes, moves) && i < j < |moves| && Asks(nodes[i], moves[i], k) && Asks(nodes[j], moves[j], l)
    ensures exists c :: i < c < j && Confirms(moves[c])
  {
    hide Step;
    if Confirms(moves[i]) {
      ConfirmAsksNothing(nodes[i], moves[i], k);
    }
    if Confirms(moves[j]) {
      ConfirmAsksNothing(nodes[j], moves[j], l);
    }
    MoveSnaps(nodes[i], moves[i]);
    MoveSnaps(nodes[j], moves[j]);
    assert nodes[i + 1] == Moved(nodes[i], moves[i]).node;
    if forall c :: i < c < j ==> !Confirms(moves[c]) {
      StaysOutstanding(nodes, moves, i + 1, j);
    }
  }

  lemma ConfirmRaises(n: Node, move: Move)
    requires Confirms(move)
    ensures var n' := Moved(n, move).node;
      && SnapshotIndex(n) <= SnapshotIndex(n')
      && (n.lastSnapshotMeta.Some? ==> n'.lastSnapshotMeta.Some?)
      && (forall k: nat :: Cuts(n, move, k) ==>
            && move.input.SnapshotComplete? && k == move.input.metadata.lastIncludedIndex
            && n'.lastSnapshotMeta == Some(move.input.metadata)
            && (n.lastSnapshotMeta.Some? ==> SnapshotIndex(n) < k))
  {
  }

  /** The recorded snapshot never goes back. */
  lemma {:induction false} SnapshotNeverFalls(nodes: seq<Node>, moves: seq<Move>, i: nat, j: nat)
    requires Trace(nodes, moves) && i <= j < |nodes|
    ensures SnapshotIndex(nodes[i]) <= SnapshotIndex(nodes[j])
    ensures nodes[i].lastSnapshotMeta.Some? ==> nodes[j].lastSnapshotMeta.Some?
    decreases j
  {
    hide Moved;
    if i < j {
      SnapshotNeverFalls(nodes, moves, i, j - 1);
      assert nodes[j - 1 + 1] == Moved(nodes[j - 1], moves[j - 1]).node;
      if Confirms(moves[j - 1]) {
        ConfirmRaises(nodes[j - 1], moves[j - 1]);
      } else {
        MoveSnaps(nodes[j - 1], moves[j - 1]);
      }
    }
  }

  lemma CutRecorded(nodes: seq<Node>, moves: seq<Move>, i: nat, k: nat)
    requires Trace(nodes, moves) && i < |moves| && Cuts(nodes[i], moves[i], k)
    ensures moves[i].Feed? && moves[i].input.SnapshotComplete? && k == moves[i].input.metadata.lastIncludedIndex
    ensures nodes[i + 1].lastSnapshotMeta == Some(moves[i].input.metadata)
    ensures nodes[i].lastSnapshotMeta.Some? ==> SnapshotIndex(nodes[i]) < k
  {
    hide Step;
    assert nodes[i + 1] == Moved(nodes[i], moves[i]).node;
    if Confirms(moves[i]) {
      ConfirmRaises(nodes[i], moves[i]);
    } else {
      MoveSnaps(nodes[i], moves[i]);
    }
  }

  /** Prefix truncations strictly increase over a run. */
  lemma CutsIncrease(nodes: seq<Node>, moves: seq<Move>, i: nat, j: nat, k: nat, l: nat)
    requires Trace(nodes, moves) && i < j < |moves| && Cuts(nodes[i], moves[i], k) && Cuts(nodes[j], moves[j], l)
    ensures k < l
  {
    hide Moved, Cuts;
    CutRecorded(nodes, moves, i, k);
    CutRecorded(nodes, moves, j, l);
    SnapshotNeverFalls(nodes, moves, i + 1, j);
  }

  /** The completion answers a request made earlier in the run. */
  ghost predicate AnswersRequest(nodes: seq<Node>, moves: seq<Move>, i: nat)
    requires Trace(nodes, moves) && i < |moves|
  {
    moves[i].Feed? && moves[i].input.SnapshotComplete? ==>
      exists j: nat :: j < i && Asks(nodes[j], moves[j], moves[i].input.metadata.lastIncludedIndex)
  }

  /** A truncation whose completion answers a request never passes what has been applied. */
  lemma CutsStayApplied(nodes: seq<Node>, moves: seq<Move>, cfg: Config, draw: nat, i: nat, k: nat)
    requires RespectfulTrace(nodes, moves, cfg, draw) && i < |moves| && Cuts(nodes[i], moves[i], k)
    requires AnswersRequest(nodes, moves, i)
    ensures k <= nodes[i].lastApplied
  {
    hide Moved, Asks, Cuts;
    CutRecorded(nodes, moves, i, k);
    var j: nat :| j < i && Asks(nodes[j], moves[j], k);
    SnapshotCoversApplied(nodes, moves, cfg, draw, j, k);
    CommitNeverFalls(nodes, moves, j + 1, i);
  }

  /** The ids of all recorded snapshots are usable for redirects. */
  ghost predicate Named(n: Node) {
    n.lastSnapshotMeta.Some? ==> n.lastSnapshotMeta.value.id != ""
  }

  ghost predicate NamedInputs(moves: seq<Move>) {
    forall i {:trigger moves[i]} :: 0 <= i < |moves| && Confirms(moves[i]) ==> moves[i].input.metadata.id != ""
  }

  lemma {:induction false} AlwaysNamed(nodes: seq<Node>, moves: seq<Move>, i: nat)
    requires Trace(nodes, moves) && nodes[0].lastSnapshotMeta == None && NamedInputs(moves) && i < |nodes|
    ensures Named(nodes[i])
  {
    hide Step;
    if i > 0 {
      AlwaysNamed(nodes, moves, i - 1);
      assert nodes[i - 1 + 1] == Moved(nodes[i - 1], moves[i - 1]).node;
      if Confirms(moves[i - 1]) {
        ConfirmNames(nodes[i - 1], moves[i - 1]);
      } else {
        MoveSnaps(nodes[i - 1], moves[i - 1]);
      }
    }
  }

  lemma ConfirmNames(n: Node, move: Move)
    requires Confirms(move)
    ensures Moved(n, move).node.lastSnapshotMeta in [n.lastSnapshotMeta, Some(move.input.metadata)]
  {
  }

  /** With snapshot ids in place, once a prefix is cut no later fetch is served from inside it. */
  lemma NothingServedFromCut(nodes: seq<Node>, moves: seq<Move>, i: nat, j: nat, k: nat, a: Action)
    requires Trace(nodes, moves) && nodes[0].lastSnapshotMeta == None && NamedInputs(moves)
    requires i < j < |moves| && Cuts(nodes[i], moves[i], k)
    requires a in Moved(nodes[j], moves[j]).actions && a.ServeFetch?
    ensures a.fetchOffset > k
  {
    hide Step, Cuts;
    CutRecorded(nodes, moves, i, k);
    SnapshotNeverFalls(nodes, moves, i + 1, j);
    AlwaysNamed(nodes, moves, j);
    if Confirms(moves[j]) {
      ConfirmServesNothing(nodes[j], moves[j], a);
    } else {
      MoveSnaps(nodes[j], moves[j]);
    }
  }

  lemma ConfirmServesNothing(n: Node, move: Move, a: Action)
    requires Confirms(move) && a in Moved(n, move).actions
    ensures !a.ServeFetch?
  {
  }
}
