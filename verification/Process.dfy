/** The whole program over time: the objects of Controller, driven by events and restarted after a crash. */
module Process {
  import opened PolicyTypes
  import opened Trail
  import opened Control
  import opened Ledger
  import opened Runs
  import opened Controller
  import G = Gate

  class Manager {
    const cluster: Cluster
    const cap: int
    const timeout: int
    const requeueAfter: int
    var now: int
    var gate: G.Gate
    var reconciler: Reconciler
    var expirer: Expirer

    /** What an observer has recorded so far. */
    ghost var seen: State

    /** The objects of one leader term share the gate and the cluster. */
    ghost predicate Wired()
      reads this, gate
    {
      && gate.cap == cap
      && reconciler.cluster == cluster && reconciler.gate == gate && reconciler.timeout == timeout
      && expirer.cluster == cluster && expirer.gate == gate && expirer.timeout == timeout
    }

    ghost function View(): World
      reads this, cluster, gate, reconciler
    {
      World(now, gate.cap, timeout, cluster.encoding, cluster.policies, cluster.workloads, gate.inflight,
            reconciler.lastWouldRestart)
    }

    ghost predicate Valid()
      reads this, cluster, gate, reconciler
    {
      Wired() && seen.world == View() && Invariant(seen)
    }

    /** A first leader, on a cluster whose policies are all new. */
    constructor (c: Cluster, cap: int, timeout: int, requeueAfter: int, now: int)
      requires forall k :: k in c.policies ==> c.policies[k].status == EMPTY_STATUS
      ensures Valid() && cluster == c && fresh(gate) && fresh(reconciler)
      ensures Initial(seen) && seen.world.now == now && seen.world.cap == cap
    {
      cluster := c;
      this.cap := cap;
      this.timeout := timeout;
      this.requeueAfter := requeueAfter;
      this.now := now;
      var g := new G.Gate(cap);
      gate := g;
      var r := new Reconciler(c, g, timeout, requeueAfter);
      reconciler := r;
      expirer := new Expirer(c, g, timeout);
      new;
      seen := State(View(), map[], map[]);
      InitialInvariant(seen);
    }

    /** A new leader: its gate is empty and it has reported nothing. */
    method Restart()
      requires Wired()
      modifies this`gate, this`reconciler, this`expirer
      ensures Wired() && fresh(gate) && fresh(reconciler)
      ensures View() == Restarted(old(View()))
    {
      gate := new G.Gate(cap);
      reconciler := new Reconciler(cluster, gate, timeout, requeueAfter);
      expirer := new Expirer(cluster, gate, timeout);
    }

    /** What one event does to the real objects, a crash in the middle of it included. */
    method Perform(e: Event)
      requires Wired()
      modifies this`now, this`gate, this`reconciler, this`expirer, cluster, gate, reconciler
      ensures Wired() && View() == Exec(old(View()), e).world
      ensures gate == old(gate) || fresh(gate)
      ensures reconciler == old(reconciler) || fresh(reconciler)
    {
      hide Control.Reconcile, ExpirerPass;
      match e {
        case Reconciles(k, i) =>
          var exit, wait, effects := reconciler.Reconcile(k, now, i);
          if exit.Crashed? {
            Restart();
          }
        case Expires(f) =>
          var exit, effects := expirer.Tick(now, f, reconciler.lastWouldRestart);
          if exit.Crashed? {
            Restart();
          }
        case Failover => Restart();
        case External(k, c) => cluster.Interfere(k, c);
        case CreatePolicy(k) => cluster.Create(k);
        case DeletePolicy(k) => cluster.Delete(k);
        case Elapse(d) => now := now + d;
      }
    }

    method Step(e: Event)
      requires Valid()
      modifies this, cluster, gate, reconciler
      ensures Valid() && seen == Next(old(seen), e)
      ensures gate == old(gate) || fresh(gate)
      ensures reconciler == old(reconciler) || fresh(reconciler)
    {
      hide Exec, Invariant, Recorded, Tracked;
      Perform(e);
      ghost var before := seen;
      seen := Next(seen, e);
      InvariantStep(before, e);
    }

    /**
      Through any events: the real gate never exceeds its cap and holds the slot of every tracked rollout, and
      every stored status is the bounded summary of the restarts counted for it.
     */
    method Serve(events: seq<Event>)
      requires Valid()
      modifies this, cluster, gate, reconciler
      ensures Valid() && seen == Run(old(seen), events)
      ensures G.WithinCap(gate.inflight, cap)
      ensures seen.active.Keys <= gate.inflight.Keys
      ensures forall k :: k in cluster.policies ==>
                Summarizes(cluster.policies[k].status, LogOf(seen.logs, k).entries, now)
    {
      ghost var start := seen;
      for n := 0 to |events|
        invariant Valid() && seen == Run(start, events[..n])
        invariant gate == old(gate) || fresh(gate)
        invariant reconciler == old(reconciler) || fresh(reconciler)
      {
        assert events[..n + 1][..n] == events[..n];
        Step(events[n]);
      }
      assert events[..|events|] == events;
      forall k | k in cluster.policies
        ensures Summarizes(cluster.policies[k].status, LogOf(seen.logs, k).entries, now)
      {
        assert StatusOk(seen.world, k, LogOf(seen.logs, k));
      }
    }
  }
}
