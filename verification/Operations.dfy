/**
 The api server's queue handlers (apiserver): create, retry and delete operations, each delivered any number
 of times, with manual acks. Handlers run one at a time.
 */
module Operations {
  import opened Wrappers
  import opened Lifecycle

  type OpId = nat
  type ClusterId = nat

  datatype State = OpPending | OpRunning | OpDone

  datatype Operation = Operation(cluster: ClusterId, state: State)

  datatype Kind = CreateMsg | RetryMsg | DeleteMsg

  /** What the handlers did: a message acked, cloud.CreateCluster called, cloud.Apply returned nil. */
  datatype Note = Acked(kind: Kind, op: OpId) | Called(op: OpId) | Applied(op: OpId)

  datatype Delivery = Delivery(kind: Kind, op: OpId, env: Env)

  type Table = map<OpId, Operation>

  function Rank(s: State): nat {
    match s case OpPending => 0 case OpRunning => 1 case OpDone => 2
  }

  /** How often the body was called for the operation. */
  function Calls(log: seq<Note>, op: OpId): (n: nat)
    ensures n == 0 <==> Called(op) !in log
  {
    if log == [] then 0
    else Calls(log[..|log| - 1], op) + if log[|log| - 1] == Called(op) then 1 else 0
  }

  lemma CallsAfter(log: seq<Note>, note: Note)
    ensures forall o :: Calls(log + [note], o) == Calls(log, o) + if note == Called(o) then 1 else 0
  {
    assert (log + [note])[..|log|] == log;
  }

  /** The same operations, none of them behind where it was. */
  ghost predicate Forward(before: Table, after: Table) {
    && after.Keys == before.Keys
    && forall o :: o in before ==>
        after[o].cluster == before[o].cluster && Rank(before[o].state) <= Rank(after[o].state)
  }

  lemma ForwardSame(t: Table)
    ensures Forward(t, t)
  {
  }

  lemma ForwardOn(a: Table, b: Table, c: Table)
    requires Forward(a, b) && Forward(b, c)
    ensures Forward(a, c)
  {
  }

  /**
   How the operations stand to where they started and to what was done: a body is called at most once, and
   not while Pending is stored; it is called exactly when a create message is acked; Done follows a
   successful Apply; a table that skips zero values never gets to Done at all.
   */
  ghost predicate Sound(skipsZero: bool, initial: Table, now: Table, log: seq<Note>) {
    && Forward(initial, now)
    && (forall o :: Calls(log, o) <= 1)
    && (forall o :: o in now && now[o].state == OpPending ==> Calls(log, o) == 0)
    && (forall o :: Acked(CreateMsg, o) in log <==> Called(o) in log)
    && (forall o :: o in now && now[o].state == OpDone ==> initial[o].state == OpDone || Applied(o) in log)
    && (skipsZero ==> forall o :: o in now && now[o].state == OpDone ==> initial[o].state == OpDone)
  }

  /** Storing Running, acking and calling the body of an operation that was Pending. */
  lemma SoundStart(skipsZero: bool, initial: Table, now: Table, log: seq<Note>, op: OpId)
    requires Sound(skipsZero, initial, now, log) && op in now && now[op].state == OpPending
    ensures var running := now[op := now[op].(state := OpRunning)];
            && Sound(skipsZero, initial, running, log)
            && Sound(skipsZero, initial, running, log + [Acked(CreateMsg, op), Called(op)])
  {
    CallsAfter(log, Acked(CreateMsg, op));
    CallsAfter(log + [Acked(CreateMsg, op)], Called(op));
    assert log + [Acked(CreateMsg, op), Called(op)] == log + [Acked(CreateMsg, op)] + [Called(op)];
  }

  lemma SoundAcked(skipsZero: bool, initial: Table, now: Table, log: seq<Note>, kind: Kind, op: OpId)
    requires Sound(skipsZero, initial, now, log) && kind != CreateMsg
    ensures Sound(skipsZero, initial, now, log + [Acked(kind, op)])
  {
    CallsAfter(log, Acked(kind, op));
  }

  lemma SoundApplied(skipsZero: bool, initial: Table, now: Table, log: seq<Note>, op: OpId)
    requires Sound(skipsZero, initial, now, log) && op in now
    ensures Sound(skipsZero, initial, now, log + [Applied(op)])
    ensures !skipsZero ==> Sound(skipsZero, initial, now[op := now[op].(state := OpDone)], log + [Applied(op)])
  {
    CallsAfter(log, Applied(op));
  }

  class Server {
    /** Whether the operation table leaves a column alone that is to be set to zero; Done is zero. */
    const skipsZero: bool
    const clusters: map<ClusterId, Store>
    var operations: Table
    ghost var log: seq<Note>

    constructor (skipsZero: bool, clusters: map<ClusterId, Store>, operations: Table)
      ensures this.skipsZero == skipsZero && this.clusters == clusters && this.operations == operations && log == []
    {
      this.skipsZero, this.clusters, this.operations, log := skipsZero, clusters, operations, [];
    }

    /** Operations().Update. */
    method Update(op: OpId, state: State)
      requires op in operations
      modifies this`operations
      ensures operations == if state == OpDone && skipsZero then old(operations)
                            else old(operations)[op := old(operations)[op].(state := state)]
    {
      if !(state == OpDone && skipsZero) {
        operations := operations[op := operations[op].(state := state)];
      }
    }

    /** Init finds the operation and its cluster. */
    predicate Loads(op: OpId, env: Env)
      reads this
    {
      && op in operations && operations[op].cluster in clusters
      && LoadOperation !in env.faults && LoadCluster !in env.faults
    }

    method Init(op: OpId, env: Env) returns (scope: Option<Scope>)
      ensures scope.Some? <==> Loads(op, env)
      ensures scope.Some? ==> fresh(scope.value) && scope.value.env == env
      ensures scope.Some? ==> scope.value.store == clusters[operations[op].cluster]
      ensures scope.Some? ==> scope.value.cluster == scope.value.store.stored
    {
      if LoadOperation in env.faults || op !in operations {
        return None;
      }
      if LoadCluster in env.faults || operations[op].cluster !in clusters {
        return None;
      }
      var s := new Scope(clusters[operations[op].cluster], env);
      scope := Some(s);
    }

    /** An Apply in which no call fails returns nil. */
    predicate CanApply(phase: Phase, store: Store)
      reads store
    {
      phase !in {Unknown, Upgrading} && (phase == Pending ==> store.managed || 0 in store.masters)
    }

    /** ApplyCluster. */
    method ApplyCluster(scope: Scope, op: OpId) returns (ok: bool)
      requires op in operations
      modifies this, scope`cluster, scope.store
      ensures log == old(log) || log == old(log) + [Applied(op)]
      ensures operations == old(operations)
              || (log != old(log) && !skipsZero
                  && operations == old(operations)[op := old(operations)[op].(state := OpDone)])
      ensures ok ==> log != old(log) && (!skipsZero ==> operations[op].state == OpDone)
      ensures scope.env.faults == {} && old(CanApply(scope.cluster.phase, scope.store)) ==> ok
      ensures old(scope.store.InOrder()) && old(scope.Synced()) ==> scope.store.InOrder()
      ensures old(scope.cluster) == old(scope.store.stored) && Settled(old(scope.store.stored)) ==>
                Settled(scope.store.stored)
      ensures scope.store.stored.stamped in {old(scope.store.stored).stamped, old(scope.cluster).stamped}
      ensures log != old(log) && old(scope.cluster) == Cluster(Pending, false) ==> scope.store.stored.phase == Ready
      ensures log != old(log) && old(scope.cluster).stamped && old(scope.cluster).phase != Deleted ==>
                scope.store.stored.phase == if scope.store.marksDeleted then Deleted else Deleting
    {
      ok := scope.Apply();
      if !ok {
        return;
      }
      log := log + [Applied(op)];
      if StoreDone in scope.env.faults {
        return false;
      }
      Update(op, OpDone);
    }

    /** The create handler gets as far as storing Running. */
    predicate Starts(op: OpId, env: Env)
      reads this
    {
      Loads(op, env) && operations[op].state == OpPending && StoreRunning !in env.faults
    }

    /** A cluster that a create operation can bring up: whatever its phase, with no master stored yet. */
    predicate CanCreate(c: Store)
      reads c
    {
      c.version != "" && (c.managed || (c.masterCount > 0 && c.masters == map[]))
    }

    /** No cluster was touched. */
    twostate predicate Untouched()
      reads this, clusters.Values
    {
      forall k :: k in clusters ==> unchanged(clusters[k])
    }

    /** A cluster that is in order stays so. */
    twostate predicate InOrder()
      reads this, clusters.Values
    {
      forall k :: k in clusters ==>
        var c := clusters[k];
        old(c.InOrder()) ==> c.InOrder()
    }

    /** Clusters stamped for deletion stay so, and Deleting or Deleted. */
    twostate predicate StampsKept()
      reads this, clusters.Values
    {
      forall k :: k in clusters && old(Settled(clusters[k].stored)) ==>
        Settled(clusters[k].stored) && (old(clusters[k].stored.stamped) ==> clusters[k].stored.stamped)
    }

    /**
     The create handler. A message whose operation is not Pending is neither acted on nor acked; errors of
     CreateCluster do not stop ApplyCluster.
     */
    method Create(op: OpId, env: Env)
      modifies this, clusters.Values
      ensures !old(Starts(op, env)) ==> operations == old(operations) && log == old(log) && Untouched()
      ensures old(Starts(op, env)) && Ack in env.faults ==>
                && operations == old(operations)[op := old(operations)[op].(state := OpRunning)]
                && log == old(log) && Untouched()
      ensures old(Starts(op, env)) && Ack !in env.faults ==>
                AppliedOnce(old(log) + [Acked(CreateMsg, op), Called(op)], op,
                            old(operations)[op := old(operations)[op].(state := OpRunning)])
      ensures old(Starts(op, env)) && env.faults == {} && old(CanCreate(clusters[operations[op].cluster])) ==>
                var c := clusters[old(operations)[op].cluster];
                && log == old(log) + [Acked(CreateMsg, op), Called(op), Applied(op)]
                && (!skipsZero ==> operations[op].state == OpDone)
                && c.stored.phase == if !old(c.stored.stamped) then Ready
                                     else if c.marksDeleted then Deleted else Deleting
      ensures InOrder()
    {
      var scope? := Init(op, env);
      if scope?.None? {
        return;
      }
      var scope := scope?.value;
      if operations[op].state != OpPending || StoreRunning in env.faults {
        return;
      }
      Update(op, OpRunning);
      if Ack in env.faults {
        return;
      }
      log := log + [Acked(CreateMsg, op), Called(op)];
      var _ := scope.CreateCluster();
      var _ := ApplyCluster(scope, op);
    }

    predicate RetryCanApply(op: OpId)
      reads this, clusters.Values
      requires op in operations && operations[op].cluster in clusters
    {
      CanApply(clusters[operations[op].cluster].stored.phase, clusters[operations[op].cluster])
    }

    /** The retry handler: acks first, in whatever state the operation is. */
    method Retry(op: OpId, env: Env)
      modifies this, clusters.Values
      ensures !old(Loads(op, env)) || Ack in env.faults ==>
                operations == old(operations) && log == old(log) && Untouched()
      ensures old(Loads(op, env)) && Ack !in env.faults ==>
                AppliedOnce(old(log) + [Acked(RetryMsg, op)], op, old(operations))
      ensures old(Loads(op, env)) && env.faults == {} && old(RetryCanApply(op)) ==>
                log == old(log) + [Acked(RetryMsg, op), Applied(op)] && (!skipsZero ==> operations[op].state == OpDone)
      ensures InOrder() && StampsKept()
    {
      var scope? := Init(op, env);
      if scope?.None? {
        return;
      }
      var scope := scope?.value;
      if Ack in env.faults {
        return;
      }
      log := log + [Acked(RetryMsg, op)];
      var _ := ApplyCluster(scope, op);
    }

    /** The delete handler: stamps the stored cluster, acks, and applies the stamped cluster. */
    method Delete(op: OpId, env: Env)
      modifies this, clusters.Values
      ensures !old(Loads(op, env)) ==> operations == old(operations) && log == old(log) && Untouched()
      ensures Ack in env.faults || GetForDelete in env.faults || StoreDelete in env.faults ==>
                operations == old(operations) && log == old(log)
      ensures log == old(log) ==> operations == old(operations)
      ensures log != old(log) ==> AppliedOnce(old(log) + [Acked(DeleteMsg, op)], op, old(operations))
      ensures old(Loads(op, env)) && env.faults == {} ==>
                log == old(log) + [Acked(DeleteMsg, op), Applied(op)] && (!skipsZero ==> operations[op].state == OpDone)
      ensures old(Loads(op, env)) && log == old(log) + [Acked(DeleteMsg, op), Applied(op)] ==>
                var c := clusters[old(operations)[op].cluster];
                c.stored.phase == if c.marksDeleted then Deleted else Deleting
      ensures InOrder() && StampsKept()
    {
      var scope? := Init(op, env);
      if scope?.None? {
        return;
      }
      var scope := scope?.value;
      var cluster := scope.store.Delete(env);
      if cluster.None? {
        return;
      }
      if Ack in env.faults {
        return;
      }
      log := log + [Acked(DeleteMsg, op)];
      scope.cluster := cluster.value;
      var _ := ApplyCluster(scope, op);
    }

    /** One delivery keeps the operations sound, whoever it goes to. */
    method Deliver(d: Delivery, ghost initial: Table)
      requires Sound(skipsZero, initial, operations, log)
      modifies this, clusters.Values
      ensures Sound(skipsZero, initial, operations, log)
      ensures Forward(old(operations), operations)
      ensures InOrder()
    {
      hide Sound;
      ghost var now, was := operations, log;
      if d.kind == CreateMsg {
        if d.op in now && now[d.op].state == OpPending {
          SoundStart(skipsZero, initial, now, was, d.op);
          SoundApplied(skipsZero, initial, now[d.op := now[d.op].(state := OpRunning)],
                       was + [Acked(CreateMsg, d.op), Called(d.op)], d.op);
        }
        Create(d.op, d.env);
        return;
      }
      if d.op in now {
        SoundAcked(skipsZero, initial, now, was, d.kind, d.op);
        SoundApplied(skipsZero, initial, now, was + [Acked(d.kind, d.op)], d.op);
      }
      if d.kind == RetryMsg {
        Retry(d.op, d.env);
      } else {
        Delete(d.op, d.env);
      }
    }

    /** From the given log and operations: the Apply failed, or it was noted and perhaps stored. */
    ghost predicate AppliedOnce(from: seq<Note>, op: OpId, before: Table)
      reads this
    {
      || (log == from && operations == before)
      || (log == from + [Applied(op)] && operations == before)
      || (log == from + [Applied(op)] && !skipsZero && op in before
          && operations == before[op := before[op].(state := OpDone)])
    }
  }

  /** Every cluster is in order. */
  ghost predicate AllInOrder(s: Server)
    reads s, s.clusters.Values
  {
    forall k :: k in s.clusters ==> s.clusters[k].InOrder()
  }

  /**
   Any sequence of deliveries and redeliveries of any messages, each with its own failures: the operations
   stay sound and the clusters in order.
   */
  method Run(s: Server, deliveries: seq<Delivery>, ghost initial: Table)
    requires Sound(s.skipsZero, initial, s.operations, s.log) && AllInOrder(s)
    modifies s, s.clusters.Values
    ensures Sound(s.skipsZero, initial, s.operations, s.log) && AllInOrder(s)
    ensures Forward(old(s.operations), s.operations)
  {
    hide Sound, Forward;
    ForwardSame(s.operations);
    for i := 0 to |deliveries|
      invariant Sound(s.skipsZero, initial, s.operations, s.log) && AllInOrder(s)
      invariant Forward(old(s.operations), s.operations)
    {
      ghost var now := s.operations;
      s.Deliver(deliveries[i], initial);
      ForwardOn(old(s.operations), now, s.operations);
    }
  }

  /**
   Deliveries other than of create messages: a cluster stamped for deletion, by this or an earlier delete,
   stays stamped and stays Deleting or Deleted.
   */
  method RunWithoutCreate(s: Server, deliveries: seq<Delivery>)
    requires forall i :: 0 <= i < |deliveries| ==> deliveries[i].kind != CreateMsg
    requires forall k :: k in s.clusters ==> Settled(s.clusters[k].stored)
    modifies s, s.clusters.Values
    ensures forall k :: k in s.clusters ==> Settled(s.clusters[k].stored)
    ensures forall k :: k in s.clusters && old(s.clusters[k].stored.stamped) ==> s.clusters[k].stored.stamped
  {
    for i := 0 to |deliveries|
      invariant forall k :: k in s.clusters ==> Settled(s.clusters[k].stored)
      invariant forall k :: k in s.clusters && old(s.clusters[k].stored.stamped) ==> s.clusters[k].stored.stamped
    {
      var d := deliveries[i];
      if d.kind == RetryMsg {
        s.Retry(d.op, d.env);
      } else {
        s.Delete(d.op, d.env);
      }
    }
  }
}
