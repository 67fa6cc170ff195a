/** The fixpoint that cancels everything downstream of a failed node, and what it computes while a wave
    closes (src/core/scheduler.py). */
module Cancellation {
  import opened Values
  import opened TaskGraphs
  import opened Evaluator
  import opened SchedulerModel

  predicate DependsOnAny(g: TaskGraph, id: NodeId, nodes: set<NodeId>)
    requires id in g.nodes
  {
    exists i :: 0 <= i < |g.Deps(id)| && g.Deps(id)[i] in nodes
  }

  /** `found` holds every pending node that depends on a member of `seeds` or of `found`. */
  ghost predicate IsClosedUnder(g: TaskGraph, seeds: set<NodeId>, pending: set<NodeId>, found: set<NodeId>)
    requires pending <= g.nodes.Keys
  {
    forall id :: id in pending && DependsOnAny(g, id, seeds + found) ==> id in found
  }

  /** `found` holds nothing that a closed set could do without. */
  ghost predicate IsForced(g: TaskGraph, seeds: set<NodeId>, pending: set<NodeId>, found: set<NodeId>)
    requires pending <= g.nodes.Keys
  {
    found <= pending && forall other :: IsClosedUnder(g, seeds, pending, other) ==> found <= other
  }

  ghost predicate IsLeastClosure(g: TaskGraph, seeds: set<NodeId>, pending: set<NodeId>, found: set<NodeId>)
    requires pending <= g.nodes.Keys
  {
    IsForced(g, seeds, pending, found) && IsClosedUnder(g, seeds, pending, found)
  }

  lemma ForcedStep(g: TaskGraph, seeds: set<NodeId>, pending: set<NodeId>, found: set<NodeId>, id: NodeId)
    requires pending <= g.nodes.Keys && id in pending && DependsOnAny(g, id, seeds + found)
    requires IsForced(g, seeds, pending, found)
    ensures IsForced(g, seeds, pending, found + {id})
  {
    forall other | IsClosedUnder(g, seeds, pending, other) ensures found + {id} <= other {
      assert DependsOnAny(g, id, seeds + other);
    }
  }

  lemma WithOneMore(outcomes: map<NodeId, TaskOutcome>, cancelled: set<NodeId>, id: NodeId)
    ensures WithCancelled(outcomes, cancelled + {id}) == WithCancelled(outcomes, cancelled)[id := CancelledOutcome(id)]
  {
  }

  /** The pass-until-stable loop marks exactly the least set of undecided nodes that depend on the failed
      node, on a node cancelled before, or on one another. */
  method MarkDownstreamCancelled(g: TaskGraph, failedId: NodeId, cancelled0: set<NodeId>, outcomes0: map<NodeId, TaskOutcome>)
    returns (cancelled: set<NodeId>, outcomes: map<NodeId, TaskOutcome>)
    ensures cancelled0 <= cancelled
    ensures IsLeastClosure(g, cancelled0 + {failedId}, g.nodes.Keys - outcomes0.Keys - cancelled0, cancelled - cancelled0)
    ensures outcomes == WithCancelled(outcomes0, cancelled - cancelled0)
  {
    ghost var undecided := g.nodes.Keys - outcomes0.Keys - cancelled0;
    var pending := g.nodes.Keys - outcomes0.Keys - cancelled0;
    ghost var found := {};
    cancelled, outcomes := cancelled0, outcomes0;
    var changed := true;
    while changed
      invariant IsForced(g, cancelled0 + {failedId}, undecided, found) && pending == undecided - found
      invariant cancelled == cancelled0 + found && outcomes == WithCancelled(outcomes0, found)
      invariant !changed ==> IsClosedUnder(g, cancelled0 + {failedId}, undecided, found)
      decreases pending, changed
    {
      changed, cancelled, outcomes, pending, found :=
        MarkOnce(g, failedId, cancelled0, outcomes0, cancelled, outcomes, pending, found, undecided);
    }
    assert cancelled - cancelled0 == found;
  }

  /** One pass over the pending nodes, in any order. */
  method MarkOnce(g: TaskGraph, failedId: NodeId, ghost cancelled0: set<NodeId>, ghost outcomes0: map<NodeId, TaskOutcome>,
                  cancelledIn: set<NodeId>, outcomesIn: map<NodeId, TaskOutcome>, pendingIn: set<NodeId>,
                  ghost foundIn: set<NodeId>, ghost undecided: set<NodeId>)
    returns (changed: bool, cancelled: set<NodeId>, outcomes: map<NodeId, TaskOutcome>, pending: set<NodeId>,
             ghost found: set<NodeId>)
    requires undecided <= g.nodes.Keys && IsForced(g, cancelled0 + {failedId}, undecided, foundIn)
    requires pendingIn == undecided - foundIn
    requires cancelledIn == cancelled0 + foundIn && outcomesIn == WithCancelled(outcomes0, foundIn)
    ensures IsForced(g, cancelled0 + {failedId}, undecided, found) && pending == undecided - found
    ensures cancelled == cancelled0 + found && outcomes == WithCancelled(outcomes0, found)
    ensures if changed then pending < pendingIn
            else pending == pendingIn && IsClosedUnder(g, cancelled0 + {failedId}, undecided, found)
  {
    changed, cancelled, outcomes, pending, found := false, cancelledIn, outcomesIn, pendingIn, foundIn;
    var todo := pending;
    while todo != {}
      invariant todo <= pending <= pendingIn && pending == undecided - found
      invariant IsForced(g, cancelled0 + {failedId}, undecided, found)
      invariant cancelled == cancelled0 + found && outcomes == WithCancelled(outcomes0, found)
      invariant if changed then pending < pendingIn else found == foundIn
      invariant !changed ==>
        forall id :: id in pending - todo ==> !DependsOnAny(g, id, cancelled0 + {failedId} + found)
      decreases todo
    {
      var id :| id in todo;
      todo := todo - {id};
      if DependsOnAny(g, id, {failedId}) || DependsOnAny(g, id, cancelled) {
        ForcedStep(g, cancelled0 + {failedId}, undecided, found, id);
        WithOneMore(outcomes0, found, id);
        cancelled := cancelled + {id};
        outcomes := outcomes[id := CancelledOutcome(id)];
        found := found + {id};
        pending := pending - {id};
        changed := true;
      }
    }
  }

  // ----- What the fixpoint means while a wave closes -----

  ghost function DownstreamSet(g: TaskGraph, targets: set<NodeId>): set<NodeId>
    requires WellFormed(g)
  {
    set id | id in g.nodes && Downstream(g, id, targets)
  }

  /** `settled` tells which nodes had been cancelled before the wave: with every dependent. */
  ghost predicate ClosedUpwards(g: TaskGraph, settled: set<NodeId>) {
    forall id :: id in g.nodes && DependsOnAny(g, id, settled) ==> id in settled
  }

  lemma {:induction false} DownstreamIsFound(g: TaskGraph, failures: set<NodeId>, seeds: set<NodeId>, pending: set<NodeId>,
                                             found: set<NodeId>, id: NodeId)
    requires WellFormed(g) && pending <= g.nodes.Keys && IsClosedUnder(g, seeds, pending, found)
    requires forall x :: x in DownstreamSet(g, failures) ==> x in pending || x in seeds
    requires forall x :: x in g.nodes && DependsOnAny(g, x, failures) ==> x in seeds || DependsOnAny(g, x, seeds)
    requires id in g.nodes && Downstream(g, id, failures)
    ensures id in seeds + found
    decreases Rank(g)[id]
  {
    assert id in DownstreamSet(g, failures);
    var i :| 0 <= i < |g.Deps(id)| && (g.Deps(id)[i] in failures || Downstream(g, g.Deps(id)[i], failures));
    if g.Deps(id)[i] in failures {
      assert DependsOnAny(g, id, failures);
      if DependsOnAny(g, id, seeds) {
        assert DependsOnAny(g, id, seeds + found);
      }
    } else {
      DownstreamIsFound(g, failures, seeds, pending, found, g.Deps(id)[i]);
      assert DependsOnAny(g, id, seeds + found);
    }
  }

  /** Everything found is downstream: the downstream nodes are themselves a closed set. */
  lemma FoundIsDownstream(g: TaskGraph, settled: set<NodeId>, failures: set<NodeId>, x: NodeId, pending: set<NodeId>,
                          found: set<NodeId>)
    requires WellFormed(g) && pending <= g.nodes.Keys && ClosedUpwards(g, settled) && settled !! pending
    requires IsForced(g, settled + DownstreamSet(g, failures) + {x}, pending, found)
    ensures found <= DownstreamSet(g, failures + {x})
  {
    var seeds, other := settled + DownstreamSet(g, failures) + {x}, pending * DownstreamSet(g, failures + {x});
    forall id | id in pending && DependsOnAny(g, id, seeds + other) ensures id in other {
      var i :| 0 <= i < |g.Deps(id)| && g.Deps(id)[i] in seeds + other;
      var dep := g.Deps(id)[i];
      if dep in settled {
        assert DependsOnAny(g, id, settled);
      }
      if dep in DownstreamSet(g, failures) {
        DownstreamOfUnion(g, dep, failures, {x});
      }
    }
    assert IsClosedUnder(g, seeds, pending, other);
  }

  /** One call of the fixpoint extends the downstream set of the failures seen by those of `x`. */
  lemma FixpointIsDownstream(g: TaskGraph, settled: set<NodeId>, failures: set<NodeId>, x: NodeId, pending: set<NodeId>,
                             found: set<NodeId>)
    requires WellFormed(g) && pending <= g.nodes.Keys && ClosedUpwards(g, settled) && settled !! pending
    requires DownstreamSet(g, failures + {x}) <= pending + settled + DownstreamSet(g, failures)
    requires IsLeastClosure(g, settled + DownstreamSet(g, failures) + {x}, pending, found)
    requires x !in DownstreamSet(g, failures + {x})
    ensures settled + DownstreamSet(g, failures) + found == settled + DownstreamSet(g, failures + {x})
  {
    var seeds := settled + DownstreamSet(g, failures) + {x};
    FoundIsDownstream(g, settled, failures, x, pending, found);
    forall id | id in DownstreamSet(g, failures) ensures id in DownstreamSet(g, failures + {x}) {
      DownstreamOfUnion(g, id, failures, {x});
    }
    forall id | id in g.nodes && DependsOnAny(g, id, failures + {x}) ensures id in seeds || DependsOnAny(g, id, seeds) {
      var i :| 0 <= i < |g.Deps(id)| && g.Deps(id)[i] in failures + {x};
      if g.Deps(id)[i] in failures {
        assert id in DownstreamSet(g, failures);
      }
    }
    forall id | id in DownstreamSet(g, failures + {x}) ensures id in settled + DownstreamSet(g, failures) + found {
      DownstreamIsFound(g, failures + {x}, seeds, pending, found, id);
    }
  }

  // ----- A wave that is partly closed -----

  /** The four collections `execute` updates while a wave closes. */
  datatype Books = Books(
    completed: set<NodeId>,
    failed: set<NodeId>,
    cancelled: set<NodeId>,
    outcomes: map<NodeId, TaskOutcome>)

  /** The collections once the outcomes of the tasks in `handled` have been recorded. */
  ghost function BooksAfter(job: Job, s: ExecState, handled: set<NodeId>): Books
    requires WellFormed(job.graph)
  {
    var downstream := DownstreamSet(job.graph, DoneWith(s, Failed) * handled);
    Books(s.completed + DoneWith(s, Completed) * handled,
          s.failed + DoneWith(s, Failed) * handled,
          s.cancelled + downstream,
          WithCancelled(s.outcomes + TaskOutcomes(s, handled), downstream - s.cancelled))
  }

  lemma BooksAtStart(job: Job, s: ExecState)
    requires WellFormed(job.graph)
    ensures BooksAfter(job, s, {}) == Books(s.completed, s.failed, s.cancelled, s.outcomes)
  {
    assert DoneWith(s, Failed) * {} == {};
    forall id | id in job.graph.nodes ensures id !in DownstreamSet(job.graph, {}) {
      NothingDownstreamOfNothing(job.graph, id);
    }
    assert DownstreamSet(job.graph, {}) == {};
  }

  lemma CancelledIsClosedUpwards(job: Job, v: Table, s: ExecState)
    requires Inv(job, v, s)
    ensures ClosedUpwards(job.graph, s.cancelled)
  {
    forall id | id in job.graph.nodes && DependsOnAny(job.graph, id, s.cancelled) ensures id in s.cancelled {
      var i :| 0 <= i < |job.graph.Deps(id)| && job.graph.Deps(id)[i] in s.cancelled;
      NodeFacts(job, v, s, job.graph.Deps(id)[i]);
      NodeFacts(job, v, s, id);
    }
  }

  /** Downstream of the failures handled so far there is no task, and no outcome but a cancellation. */
  lemma DownstreamOfHandled(job: Job, v: Table, s: ExecState, handled: set<NodeId>)
    requires Inv(job, v, s) && handled <= s.tasks.Keys
    ensures DownstreamUndecided(job.graph, s, handled)
  {
    CancelledIsClosedUpwards(job, v, s);
    forall id | id in DownstreamSet(job.graph, DoneWith(s, Failed) * handled)
      ensures id !in s.tasks && (id in s.outcomes ==> id in s.cancelled)
    {
      assert (DoneWith(s, Failed) * handled) + DoneWith(s, Failed) == DoneWith(s, Failed);
      DownstreamOfUnion(job.graph, id, DoneWith(s, Failed) * handled, DoneWith(s, Failed));
      DownstreamOfWave(job, v, s, id);
    }
  }

  /** What the invariant gives about the failures handled so far and what is downstream of them. */
  ghost predicate DownstreamUndecided(g: TaskGraph, s: ExecState, handled: set<NodeId>)
    requires WellFormed(g)
  {
    && handled <= s.tasks.Keys
    && ClosedUpwards(g, s.cancelled)
    && forall id :: id in DownstreamSet(g, DoneWith(s, Failed) * handled) ==>
         id !in s.tasks && (id in s.outcomes ==> id in s.cancelled)
  }

  lemma RecordUnder(outcomes: map<NodeId, TaskOutcome>, recorded: map<NodeId, TaskOutcome>, cancelled: set<NodeId>,
                    x: NodeId, o: TaskOutcome)
    requires x !in cancelled
    ensures WithCancelled(outcomes + recorded, cancelled)[x := o] == WithCancelled(outcomes + recorded[x := o], cancelled)
  {
  }

  lemma TaskOutcomesAdd(s: ExecState, handled: set<NodeId>, x: NodeId)
    requires x in s.tasks && s.tasks[x].Done?
    ensures TaskOutcomes(s, handled + {x}) == TaskOutcomes(s, handled)[x := s.tasks[x].outcome]
  {
  }

  lemma RecordedOutcomes(g: TaskGraph, s: ExecState, handled: set<NodeId>, x: NodeId)
    requires WellFormed(g) && x in s.tasks && s.tasks[x].Done? && DownstreamUndecided(g, s, handled)
    ensures var downstream := DownstreamSet(g, DoneWith(s, Failed) * handled);
      WithCancelled(s.outcomes + TaskOutcomes(s, handled), downstream - s.cancelled)[x := s.tasks[x].outcome]
      == WithCancelled(s.outcomes + TaskOutcomes(s, handled + {x}), downstream - s.cancelled)
  {
    var downstream := DownstreamSet(g, DoneWith(s, Failed) * handled);
    TaskOutcomesAdd(s, handled, x);
    RecordUnder(s.outcomes, TaskOutcomes(s, handled), downstream - s.cancelled, x, s.tasks[x].outcome);
  }

  /** Recording an outcome that is not a failure. */
  lemma BooksRecord(job: Job, s: ExecState, handled: set<NodeId>, x: NodeId, b: Books)
    requires WellFormed(job.graph) && DownstreamUndecided(job.graph, s, handled)
    requires x in s.tasks && s.tasks[x].Done? && s.tasks[x].outcome.status.Completed?
    requires b == BooksAfter(job, s, handled)
    ensures BooksAfter(job, s, handled + {x}) ==
      b.(completed := b.completed + {x}, outcomes := b.outcomes[x := s.tasks[x].outcome])
  {
    RecordedOutcomes(job.graph, s, handled, x);
    assert DoneWith(s, Failed) * (handled + {x}) == DoneWith(s, Failed) * handled;
    assert DoneWith(s, Completed) * (handled + {x}) == DoneWith(s, Completed) * handled + {x};
  }

  lemma TwoCancellations(outcomes: map<NodeId, TaskOutcome>, a: set<NodeId>, b: set<NodeId>)
    ensures WithCancelled(WithCancelled(outcomes, a), b) == WithCancelled(outcomes, a + b)
  {
  }

  lemma WithCancelledKeys(outcomes: map<NodeId, TaskOutcome>, cancelled: set<NodeId>)
    ensures WithCancelled(outcomes, cancelled).Keys == outcomes.Keys + cancelled
  {
  }

  /** The nodes the fixpoint starts from are those it has to decide. */
  lemma PendingCoversDownstream(g: TaskGraph, s: ExecState, handled: set<NodeId>, x: NodeId, pending: set<NodeId>)
    requires WellFormed(g) && x in s.tasks && DownstreamUndecided(g, s, handled + {x})
    requires pending == g.nodes.Keys - (s.outcomes.Keys + handled + {x}
               + (DownstreamSet(g, DoneWith(s, Failed) * handled) - s.cancelled))
               - (s.cancelled + DownstreamSet(g, DoneWith(s, Failed) * handled))
    ensures DownstreamSet(g, DoneWith(s, Failed) * (handled + {x})) <=
      pending + s.cancelled + DownstreamSet(g, DoneWith(s, Failed) * handled)
  {
  }

  /** The fixpoint run after recording the failure of `x` adds exactly what is downstream of it. */
  lemma FixpointOfWave(g: TaskGraph, s: ExecState, handled: set<NodeId>, cancelled: set<NodeId>,
                       outcomes: map<NodeId, TaskOutcome>, x: NodeId, found: set<NodeId>)
    requires WellFormed(g) && x in s.tasks && x in DoneWith(s, Failed)
    requires DownstreamUndecided(g, s, handled + {x})
    requires cancelled == s.cancelled + DownstreamSet(g, DoneWith(s, Failed) * handled)
    requires outcomes.Keys == s.outcomes.Keys + handled + {x}
               + (DownstreamSet(g, DoneWith(s, Failed) * handled) - s.cancelled)
    requires IsLeastClosure(g, cancelled + {x}, g.nodes.Keys - outcomes.Keys - cancelled, found)
    ensures cancelled + found == s.cancelled + DownstreamSet(g, DoneWith(s, Failed) * (handled + {x}))
    ensures (DownstreamSet(g, DoneWith(s, Failed) * handled) - s.cancelled) + found ==
      DownstreamSet(g, DoneWith(s, Failed) * (handled + {x})) - s.cancelled
  {
    var F, pending := DoneWith(s, Failed) * handled, g.nodes.Keys - outcomes.Keys - cancelled;
    assert DoneWith(s, Failed) * (handled + {x}) == F + {x};
    PendingCoversDownstream(g, s, handled, x, pending);
    FixpointIsDownstream(g, s.cancelled, F, x, pending, found);
  }

  lemma RecordedKeys(g: TaskGraph, s: ExecState, handled: set<NodeId>, x: NodeId)
    requires WellFormed(g) && x in s.tasks && s.tasks[x].Done?
    requires TaskOutcomes(s, handled).Keys == handled
    ensures var downstream := DownstreamSet(g, DoneWith(s, Failed) * handled);
      WithCancelled(s.outcomes + TaskOutcomes(s, handled), downstream - s.cancelled)[x := s.tasks[x].outcome].Keys
      == s.outcomes.Keys + handled + {x} + (downstream - s.cancelled)
  {
    var downstream := DownstreamSet(g, DoneWith(s, Failed) * handled);
    WithCancelledKeys(s.outcomes + TaskOutcomes(s, handled), downstream - s.cancelled);
  }

  /** Recording a failure and cancelling what the fixpoint finds. */
  lemma BooksFail(job: Job, s: ExecState, handled: set<NodeId>, x: NodeId, b: Books, found: set<NodeId>)
    requires WellFormed(job.graph) && x in s.tasks && s.tasks[x].Done? && s.tasks[x].outcome.status.Failed?
    requires DownstreamUndecided(job.graph, s, handled) && DownstreamUndecided(job.graph, s, handled + {x})
    requires TaskOutcomes(s, handled).Keys == handled
    requires b == BooksAfter(job, s, handled)
    requires IsLeastClosure(job.graph, b.cancelled + {x},
               job.graph.nodes.Keys - b.outcomes[x := s.tasks[x].outcome].Keys - b.cancelled, found)
    ensures BooksAfter(job, s, handled + {x}) ==
      b.(failed := b.failed + {x}, cancelled := b.cancelled + found,
         outcomes := WithCancelled(b.outcomes[x := s.tasks[x].outcome], found))
  {
    var g, D := job.graph, DownstreamSet(job.graph, DoneWith(s, Failed) * handled);
    RecordedKeys(g, s, handled, x);
    FixpointOfWave(g, s, handled, b.cancelled, b.outcomes[x := s.tasks[x].outcome], x, found);
    RecordedOutcomes(g, s, handled, x);
    TwoCancellations(s.outcomes + TaskOutcomes(s, handled + {x}), D - s.cancelled, found);
    assert DoneWith(s, Completed) * (handled + {x}) == DoneWith(s, Completed) * handled;
    assert DoneWith(s, Failed) * (handled + {x}) == DoneWith(s, Failed) * handled + {x};
  }

  lemma AllHandled(job: Job, s: ExecState)
    requires WellFormed(job.graph) && DownstreamUndecided(job.graph, s, s.tasks.Keys) && s.cancelled <= s.outcomes.Keys
    ensures DoneWith(s, Failed) * s.tasks.Keys == DoneWith(s, Failed)
    ensures DoneWith(s, Completed) * s.tasks.Keys == DoneWith(s, Completed)
    ensures DownstreamSet(job.graph, DoneWith(s, Failed)) - s.cancelled == NewlyCancelled(job, s)
  {
    assert DoneWith(s, Failed) * s.tasks.Keys == DoneWith(s, Failed);
  }

  lemma BooksAtEnd(job: Job, s: ExecState, b: Books)
    requires WellFormed(job.graph) && DownstreamUndecided(job.graph, s, s.tasks.Keys) && s.cancelled <= s.outcomes.Keys
    requires b == BooksAfter(job, s, s.tasks.Keys)
    ensures ClosedState(job, s) ==
      s.(completed := b.completed, failed := b.failed, cancelled := b.cancelled, outcomes := b.outcomes,
         tasks := map[], waves := s.waves + 1)
  {
    AllHandled(job, s);
    assert s.cancelled + NewlyCancelled(job, s) == b.cancelled;
  }
}
