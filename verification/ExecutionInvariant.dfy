/** What every step keeps about one execution and its ledger. */
module ExecutionInvariant {
  import opened Collections
  import opened Protocol
  import opened Workers

  /** The producer's side: what was sent, in which order, and which pods are registered. */
  ghost predicate SentInOrder(l: Ledger, x: Execution) {
    && Distinct(l.nodes)
    && l.sent <= l.nodes
    && l.sent == l.received + x.queue
    && Elements(l.sent) <= x.pods.Keys <= Elements(l.nodes)
    && (x.closed ==> l.sent == l.nodes)
  }

  /** Jobs that came as far as r are with a worker that stands there, or finished. */
  ghost predicate Accounted(jobs: seq<string>, ws: seq<Worker>, r: nat, finished: seq<string>)
    requires r > 0
  {
    forall node :: Times(jobs, node) == Count(ws, r, node) + Times(finished, node)
  }

  ghost predicate Balanced(l: Ledger, ws: seq<Worker>) {
    && Accounted(l.received, ws, 1, l.finished)
    && Accounted(l.created, ws, 2, l.finished)
    && Accounted(l.started, ws, 3, l.finished)
    && |l.received| == Busy(ws) + |l.finished|
  }

  ghost predicate PodsAgree(l: Ledger, x: Execution) {
    && (forall node | node in x.pods :: x.pods[node].started.Some? <==> node in l.started)
    && (forall node | node in l.finished :: node in x.pods && x.pods[node].terminated.Some?)
  }

  ghost predicate WorkersOk(poolSize: int, x: Execution) {
    && |x.workers| == poolSize
    && |x.queue| <= poolSize
    && (forall w | 0 <= w < |x.workers| :: x.workers[w] != Dead)
    && (forall w | 0 <= w < |x.workers| && x.workers[w] == Exited :: x.closed && x.queue == [])
  }

  ghost predicate ExecInv(poolSize: int, l: Ledger, x: Execution) {
    && SentInOrder(l, x)
    && Balanced(l, x.workers)
    && PodsAgree(l, x)
    && WorkersOk(poolSize, x)
  }

  lemma NewExecutionInv(poolSize: nat, id: string, nodes: seq<string>)
    requires Distinct(nodes)
    ensures ExecInv(poolSize, Ledger(nodes, [], [], [], [], []),
                    Execution(id, map[], [], false, seq(poolSize, _ => Waiting)))
  {
    IdleWorkers(seq(poolSize, _ => Waiting));
  }

  /** Started and finished jobs were created, and created jobs were received, hence sent. */
  lemma StartedIsSent(l: Ledger, x: Execution, node: string)
    requires SentInOrder(l, x) && Balanced(l, x.workers)
    ensures node in l.finished ==> node in l.started
    ensures node in l.started ==> node in l.created
    ensures node in l.created ==> node in l.received
    ensures node in l.received ==> node in x.pods
  {
    CountDrops(x.workers, 0, 1, 2, node);
    CountDrops(x.workers, 0, 2, 3, node);
    TimesMember(l.finished, node);
    TimesMember(l.started, node);
    TimesMember(l.created, node);
    TimesMember(l.received, node);
    if node in l.received {
      assert node in l.sent;
      assert node in Elements(l.sent);
    }
  }

  lemma ReceivedOnce(l: Ledger, x: Execution, node: string)
    requires SentInOrder(l, x) && Balanced(l, x.workers)
    ensures Distinct(l.sent) && Distinct(l.received)
    ensures Times(l.received, node) <= 1
  {
    assert forall i | 0 <= i < |l.sent| :: l.sent[i] == l.nodes[i];
    assert forall i | 0 <= i < |l.received| :: l.received[i] == l.sent[i];
    TimesMember(l.received, node);
  }

  /** The job of a busy worker was received, is registered, is not finished, and is started iff it is polled. */
  lemma BusyWorkersJob(poolSize: int, l: Ledger, x: Execution, w: nat)
    requires ExecInv(poolSize, l, x)
    requires w < |x.workers| && Rank(x.workers[w]) > 0
    ensures var node := x.workers[w].node;
            node in l.received && node in x.pods && node !in l.finished
            && (Rank(x.workers[w]) < 3 ==> x.pods[node].started.None?)
  {
    var node := x.workers[w].node;
    CountAtLeastOne(x.workers, w, 1, node);
    TimesMember(l.received, node);
    TimesMember(l.finished, node);
    TimesMember(l.started, node);
    StartedIsSent(l, x, node);
    ReceivedOnce(l, x, node);
    CountDrops(x.workers, w, 1, 3, node);
  }

  // ---------------------------------------------------------------- one lemma per step

  lemma StoreKeeps(poolSize: int, l: Ledger, x: Execution, node: string)
    requires ExecInv(poolSize, l, x)
    requires node !in x.pods && node in l.nodes
    ensures ExecInv(poolSize, l, x.(pods := x.pods[node := NEW_POD]))
  {
    StartedIsSent(l, x, node);
  }

  lemma SendKeeps(poolSize: int, l: Ledger, x: Execution, node: string)
    requires ExecInv(poolSize, l, x) && !x.closed
    requires |x.queue| < poolSize && node in x.pods
    requires l.sent + [node] <= l.nodes
    ensures ExecInv(poolSize, l.(sent := l.sent + [node]), x.(queue := x.queue + [node]))
  {
    ElementsSnoc(l.sent, node);
    assert l.sent + [node] == l.received + (x.queue + [node]);
  }

  /** Moving one worker along keeps the balance when the ledger notes the same move. */
  lemma MoveKeepsAccount(jobs: seq<string>, more: seq<string>, ws: seq<Worker>, w: nat, to: Worker, r: nat,
                         finished: seq<string>, done: seq<string>)
    requires r > 0 && w < |ws| && Accounted(jobs, ws, r, finished)
    requires forall node ::
               Times(more, node) - Times(jobs, node) - Times(done, node) + Times(finished, node)
               == (if HasFrom(to, r, node) then 1 else 0) - (if HasFrom(ws[w], r, node) then 1 else 0)
    ensures Accounted(more, ws[w := to], r, done)
  {
    forall node
      ensures Times(more, node) == Count(ws[w := to], r, node) + Times(done, node)
    {
      CountUpdate(ws, w, to, r, node);
    }
  }

  lemma ReceiveBalances(l: Ledger, ws: seq<Worker>, w: nat, node: string)
    requires Balanced(l, ws) && w < |ws| && ws[w] == Waiting
    ensures Balanced(l.(received := l.received + [node]), ws[w := Holding(node)])
  {
    forall n ensures Times(l.received + [node], n) == Times(l.received, n) + if n == node then 1 else 0 {
      TimesSnoc(l.received, node, n);
    }
    MoveKeepsAccount(l.received, l.received + [node], ws, w, Holding(node), 1, l.finished, l.finished);
    MoveKeepsAccount(l.created, l.created, ws, w, Holding(node), 2, l.finished, l.finished);
    MoveKeepsAccount(l.started, l.started, ws, w, Holding(node), 3, l.finished, l.finished);
    BusyUpdate(ws, w, Holding(node));
  }

  lemma CreateBalances(l: Ledger, ws: seq<Worker>, w: nat, node: string)
    requires Balanced(l, ws) && w < |ws| && ws[w] == Holding(node)
    ensures Balanced(l.(created := l.created + [node]), ws[w := Creating(node)])
  {
    forall n ensures Times(l.created + [node], n) == Times(l.created, n) + if n == node then 1 else 0 {
      TimesSnoc(l.created, node, n);
    }
    MoveKeepsAccount(l.received, l.received, ws, w, Creating(node), 1, l.finished, l.finished);
    MoveKeepsAccount(l.created, l.created + [node], ws, w, Creating(node), 2, l.finished, l.finished);
    MoveKeepsAccount(l.started, l.started, ws, w, Creating(node), 3, l.finished, l.finished);
    BusyUpdate(ws, w, Creating(node));
  }

  lemma StartBalances(l: Ledger, ws: seq<Worker>, w: nat, node: string)
    requires Balanced(l, ws) && w < |ws| && ws[w] == Creating(node)
    ensures Balanced(l.(started := l.started + [node]), ws[w := Polling(node)])
  {
    forall n ensures Times(l.started + [node], n) == Times(l.started, n) + if n == node then 1 else 0 {
      TimesSnoc(l.started, node, n);
    }
    MoveKeepsAccount(l.received, l.received, ws, w, Polling(node), 1, l.finished, l.finished);
    MoveKeepsAccount(l.created, l.created, ws, w, Polling(node), 2, l.finished, l.finished);
    MoveKeepsAccount(l.started, l.started + [node], ws, w, Polling(node), 3, l.finished, l.finished);
    BusyUpdate(ws, w, Polling(node));
  }

  lemma FinishBalances(l: Ledger, ws: seq<Worker>, w: nat, node: string)
    requires Balanced(l, ws) && w < |ws| && ws[w] == Polling(node)
    ensures Balanced(l.(finished := l.finished + [node]), ws[w := Waiting])
  {
    forall n ensures Times(l.finished + [node], n) == Times(l.finished, n) + if n == node then 1 else 0 {
      TimesSnoc(l.finished, node, n);
    }
    MoveKeepsAccount(l.received, l.received, ws, w, Waiting, 1, l.finished, l.finished + [node]);
    MoveKeepsAccount(l.created, l.created, ws, w, Waiting, 2, l.finished, l.finished + [node]);
    MoveKeepsAccount(l.started, l.started, ws, w, Waiting, 3, l.finished, l.finished + [node]);
    BusyUpdate(ws, w, Waiting);
  }

  lemma ExitBalances(l: Ledger, ws: seq<Worker>, w: nat)
    requires Balanced(l, ws) && w < |ws| && ws[w] == Waiting
    ensures Balanced(l, ws[w := Exited])
  {
    MoveKeepsAccount(l.received, l.received, ws, w, Exited, 1, l.finished, l.finished);
    MoveKeepsAccount(l.created, l.created, ws, w, Exited, 2, l.finished, l.finished);
    MoveKeepsAccount(l.started, l.started, ws, w, Exited, 3, l.finished, l.finished);
    BusyUpdate(ws, w, Exited);
  }

  lemma ReceiveKeeps(poolSize: int, l: Ledger, x: Execution, w: nat)
    requires ExecInv(poolSize, l, x)
    requires w < |x.workers| && x.workers[w] == Waiting && x.queue != []
    ensures ExecInv(poolSize, l.(received := l.received + [x.queue[0]]),
                    WithWorker(x, w, Holding(x.queue[0])).(queue := x.queue[1..]))
  {
    ReceiveBalances(l, x.workers, w, x.queue[0]);
    assert l.received + x.queue == (l.received + [x.queue[0]]) + x.queue[1..];
  }

  lemma CreateKeeps(poolSize: int, l: Ledger, x: Execution, w: nat, node: string)
    requires ExecInv(poolSize, l, x)
    requires w < |x.workers| && x.workers[w] == Holding(node)
    ensures ExecInv(poolSize, l.(created := l.created + [node]), WithWorker(x, w, Creating(node)))
  {
    CreateBalances(l, x.workers, w, node);
  }

  lemma StartKeeps(poolSize: int, l: Ledger, x: Execution, w: nat, node: string, t: nat)
    requires ExecInv(poolSize, l, x)
    requires w < |x.workers| && x.workers[w] == Creating(node)
    ensures node in x.pods
    ensures ExecInv(poolSize, l.(started := l.started + [node]),
                    WithWorker(x.(pods := x.pods[node := x.pods[node].(started := Some(t))]), w, Polling(node)))
  {
    BusyWorkersJob(poolSize, l, x, w);
    StartBalances(l, x.workers, w, node);
    assert x.pods[node := x.pods[node].(started := Some(t))].Keys == x.pods.Keys;
  }

  lemma FinishKeeps(poolSize: int, l: Ledger, x: Execution, w: nat, node: string)
    requires ExecInv(poolSize, l, x)
    requires w < |x.workers| && x.workers[w] == Polling(node)
    requires node in x.pods && x.pods[node].terminated.Some?
    ensures ExecInv(poolSize, l.(finished := l.finished + [node]), WithWorker(x, w, Waiting))
  {
    FinishBalances(l, x.workers, w, node);
  }

  lemma ExitKeeps(poolSize: int, l: Ledger, x: Execution, w: nat)
    requires ExecInv(poolSize, l, x)
    requires w < |x.workers| && x.workers[w] == Waiting && x.queue == [] && x.closed
    ensures ExecInv(poolSize, l, WithWorker(x, w, Exited))
  {
    ExitBalances(l, x.workers, w);
  }

  /** Termination and reports change a registered pod's other fields only. */
  lemma PodUpdateKeeps(poolSize: int, l: Ledger, x: Execution, node: string, p: Pod)
    requires ExecInv(poolSize, l, x)
    requires node in x.pods && p.started == x.pods[node].started
    requires x.pods[node].terminated.Some? ==> p.terminated.Some?
    ensures ExecInv(poolSize, l, x.(pods := x.pods[node := p]))
  {
    assert x.pods[node := p].Keys == x.pods.Keys;
  }
}
