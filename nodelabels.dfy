/**
 * Node-label enforcement (pkg/controllers/nodelabels/reconciler.go): every
 * node of the target cluster must carry both node-role labels. Labels that
 * are present are never touched, whatever their value; missing ones are added
 * with the empty value, and the node is written back with one update.
 */
module Nodelabels {
  import opened Kube

  /** The labels every node must have, each with the value it gets when added. */
  const RequiredLabels: map<string, string> :=
    map["node-role.kubernetes.io/worker" := "", "node-role.kubernetes.io/master" := ""]

  /** Every required label key is present; values are not looked at. */
  predicate Labelled(labels: map<string, string>) {
    RequiredLabels.Keys <= labels.Keys
  }

  /** The labels after the missing required ones have been added. */
  function WithRequiredLabels(labels: map<string, string>): (r: map<string, string>)
    ensures r.Keys == labels.Keys + RequiredLabels.Keys
    ensures forall k :: k in labels ==> r[k] == labels[k]
    ensures forall k :: k in r && k !in labels ==> r[k] == ""
    ensures Labelled(r)
  {
    map k | k in labels.Keys + RequiredLabels.Keys :: if k in labels then labels[k] else RequiredLabels[k]
  }

  /** hasRequiredLabels: an early-exit scan over the required keys, in
      whatever order the map yields them. */
  method HasRequiredLabels(node: Node) returns (b: bool)
    ensures b <==> Labelled(node.labels)
  {
    var todo := RequiredLabels.Keys;
    while todo != {}
      invariant todo <= RequiredLabels.Keys
      invariant forall k :: k in RequiredLabels.Keys - todo ==> k in node.labels
      decreases todo
    {
      var k :| k in todo;
      if k !in node.labels {
        return false;
      }
      todo := todo - {k};
    }
    return true;
  }

  /** What a reconcile of node `name` does to the world: read the node from
      the cache; if it is not fully labelled, write it back with the missing
      labels added. The write goes to the server; the cache is left alone. */
  function ReconcileOutcome(w: World, name: string): Step {
    var get := Call(CachedGet, NodeKind, NodeKey(name));
    match Read(w.nodeCache, w.faults, get)
    case Err(e) => Step(w.Logged(get), Some(e))
    case Ok(node) =>
      if Labelled(node.labels) then Step(w.Logged(get), None)
      else UpdateOutcome(w.Logged(get), name, node.(labels := WithRequiredLabels(node.labels)))
  }

  /** One update call for `node`. */
  function UpdateOutcome(w: World, name: string, node: Node): Step {
    var put := Call(Update, NodeKind, NodeKey(name));
    match Write(w.nodes, w.faults, put, node)
    case Err(e) => Step(w.Logged(put), Some(e))
    case Ok(nodes) => Step(w.Logged(put).(nodes := nodes), None)
  }

  /** The reconcile as the source writes it: the node it labels is the
      cache's own object, so the labels land in the cache before the update
      is issued, and stay there even when the update fails. Apart from the
      cache it does exactly what `ReconcileOutcome` does: the same calls, the
      same server writes, the same error. */
  function ReconcileOutcomeSharingCache(w: World, name: string): (r: Step)
    ensures var s := ReconcileOutcome(w, name);
      r.err == s.err && r.world.(nodeCache := w.nodeCache) == s.world
    ensures var found := Read(w.nodeCache, w.faults, Call(CachedGet, NodeKind, NodeKey(name)));
      r.world.nodeCache ==
        if found.Ok? && !Labelled(found.value.labels)
        then w.nodeCache[NodeKey(name) := found.value.(labels := WithRequiredLabels(found.value.labels))]
        else w.nodeCache
    ensures r.world.nodeCache.Keys == w.nodeCache.Keys
  {
    var get := Call(CachedGet, NodeKind, NodeKey(name));
    match Read(w.nodeCache, w.faults, get)
    case Err(e) => Step(w.Logged(get), Some(e))
    case Ok(node) =>
      if Labelled(node.labels) then Step(w.Logged(get), None)
      else
        var labelled := node.(labels := WithRequiredLabels(node.labels));
        var shared := w.Logged(get).(nodeCache := w.nodeCache[NodeKey(name) := labelled]);
        UpdateOutcomeWrites(shared, name, labelled);
        UpdateOutcomeWrites(w.Logged(get), name, labelled);
        UpdateOutcome(shared, name, labelled)
  }

  class NodeLabels {
    /** The target cluster: its node lister and its client. */
    const cluster: Cluster

    constructor (cluster: Cluster)
      ensures this.cluster == cluster
    {
      this.cluster := cluster;
    }

    method Reconcile(req: Key) returns (err: Option<Error>)
      modifies cluster
      ensures var r := ReconcileOutcome(old(cluster.View()), req.name);
        cluster.View() == r.world && err == r.err
    {
      var got := cluster.CachedNode(req.name);
      if got.Err? {
        return Some(got.error);
      }
      var node := got.value;
      var labelled := HasRequiredLabels(node);
      if labelled {
        return None;
      }
      var labels := node.labels;
      var todo := RequiredLabels.Keys;
      while todo != {}
        invariant todo <= RequiredLabels.Keys
        invariant labels.Keys == node.labels.Keys + (RequiredLabels.Keys - todo)
        invariant forall k :: k in labels ==> labels[k] == if k in node.labels then node.labels[k] else RequiredLabels[k]
        decreases todo
      {
        var k :| k in todo;
        if k !in labels {
          labels := labels[k := RequiredLabels[k]];
        }
        todo := todo - {k};
      }
      assert labels == WithRequiredLabels(node.labels);
      ghost var w1 := cluster.View();
      assert ReconcileOutcome(old(cluster.View()), req.name) == UpdateOutcome(w1, req.name, node.(labels := labels));
      err := cluster.UpdateNode(req.name, node.(labels := labels));
    }
  }

  // ----- Properties of a reconcile -----

  /** A failed lookup (not-found included) is returned, and nothing is written. */
  lemma LookupFailureIsReturned(w: World, name: string)
    requires Read(w.nodeCache, w.faults, Call(CachedGet, NodeKind, NodeKey(name))).Err?
    ensures var get := Call(CachedGet, NodeKind, NodeKey(name));
      ReconcileOutcome(w, name) == Step(w.Logged(get), Some(Read(w.nodeCache, w.faults, get).error))
  {
  }

  /** A node that already has every required key is left alone. */
  lemma LabelledNodeIsNoop(w: World, name: string)
    requires NodeKey(name) in w.nodeCache && Call(CachedGet, NodeKind, NodeKey(name)) !in w.faults
    requires Labelled(w.nodeCache[NodeKey(name)].labels)
    ensures ReconcileOutcome(w, name) == Step(w.Logged(Call(CachedGet, NodeKind, NodeKey(name))), None)
  {
  }

  /** A node missing a required key gets exactly one update, carrying the
      old labels plus the missing ones, and its error is what reconcile returns. */
  lemma MissingLabelsOneUpdate(w: World, name: string)
    requires NodeKey(name) in w.nodeCache && Call(CachedGet, NodeKind, NodeKey(name)) !in w.faults
    requires !Labelled(w.nodeCache[NodeKey(name)].labels)
    ensures var get := Call(CachedGet, NodeKind, NodeKey(name));
      var put := Call(Update, NodeKind, NodeKey(name));
      var node := w.nodeCache[NodeKey(name)];
      var node' := node.(labels := WithRequiredLabels(node.labels));
      var r := ReconcileOutcome(w, name);
      && r.world.log == w.log + [get, put]
      && Writes(CallsSince(w, r.world)) == [put]
      && r.world == w.(log := r.world.log, nodes := r.world.nodes)
      && match Write(w.nodes, w.faults, put, node')
         case Ok(nodes) => r.err == None && r.world.nodes == nodes
         case Err(e) => r.err == Some(e) && r.world.nodes == w.nodes
  {
    var get := Call(CachedGet, NodeKind, NodeKey(name));
    var put := Call(Update, NodeKind, NodeKey(name));
    var node := w.nodeCache[NodeKey(name)];
    var node' := node.(labels := WithRequiredLabels(node.labels));
    assert ReconcileOutcome(w, name) == UpdateOutcome(w.Logged(get), name, node');
    UpdateOutcomeWrites(w.Logged(get), name, node');
    var r := ReconcileOutcome(w, name);
    assert r.world.log == w.log + [get] + [put];
    assert CallsSince(w, r.world) == [get, put];
    WritesOfReadThenUpdate(get, put);
  }

  /** The single update: logged, and the node store is the write's outcome. */
  lemma UpdateOutcomeWrites(w: World, name: string, node: Node)
    ensures var put := Call(Update, NodeKind, NodeKey(name));
      var r := UpdateOutcome(w, name, node);
      && r.world == w.(log := w.log + [put], nodes := r.world.nodes)
      && match Write(w.nodes, w.faults, put, node)
         case Ok(nodes) => r.err == None && r.world.nodes == nodes
         case Err(e) => r.err == Some(e) && r.world.nodes == w.nodes
  {
  }

  /** Reconcile never writes anything but the node it was asked about, and
      only with the old labels plus the required ones. */
  lemma OnlyTheRequestedNodeChanges(w: World, name: string)
    ensures var r := ReconcileOutcome(w, name);
      && r.world == w.(log := r.world.log, nodes := r.world.nodes)
      && r.world.nodes.Keys == w.nodes.Keys
      && (forall k :: k in w.nodes && k != NodeKey(name) ==> r.world.nodes[k] == w.nodes[k])
      && (r.world.nodes != w.nodes ==>
            var node := w.nodeCache[NodeKey(name)];
            r.world.nodes == w.nodes[NodeKey(name) := node.(labels := WithRequiredLabels(node.labels))])
  {
    var get := Call(CachedGet, NodeKind, NodeKey(name));
    match Read(w.nodeCache, w.faults, get)
    case Err(e) =>
      assert ReconcileOutcome(w, name) == Step(w.Logged(get), Some(e));
    case Ok(node) =>
      if Labelled(node.labels) {
        assert ReconcileOutcome(w, name) == Step(w.Logged(get), None);
      } else {
        var node' := node.(labels := WithRequiredLabels(node.labels));
        assert ReconcileOutcome(w, name) == UpdateOutcome(w.Logged(get), name, node');
        UpdateOutcomeWrites(w.Logged(get), name, node');
      }
  }

  /** Adding the required labels to a labelled map changes nothing, so the
      early return in Reconcile only skips a write that would not change the node. */
  lemma LabelledIsFixpoint(labels: map<string, string>)
    requires Labelled(labels)
    ensures WithRequiredLabels(labels) == labels
  {
  }

  /** Once the cache has caught up with the server after a successful
      update, the next reconcile makes no write. */
  lemma ConvergesAfterCacheCatchesUp(w: World, name: string)
    requires NodeKey(name) in w.nodeCache && Call(CachedGet, NodeKind, NodeKey(name)) !in w.faults
    requires !Labelled(w.nodeCache[NodeKey(name)].labels)
    requires ReconcileOutcome(w, name).err == None
    ensures var w1 := ReconcileOutcome(w, name).world;
      var caughtUp := w1.(nodeCache := w1.nodeCache[NodeKey(name) := w1.nodes[NodeKey(name)]]);
      ReconcileOutcome(caughtUp, name) == Step(caughtUp.Logged(Call(CachedGet, NodeKind, NodeKey(name))), None)
  {
  }

  // ----- The cache-sharing discrepancy -----

  /** What the source does: with the update failing once, the requeued retry
      finds the labels already in its cache, returns success and never
      writes, although the server's node still has no role labels. */
  lemma RetryAfterFailedUpdateSkipsWriteAsWritten()
    ensures
      var key := NodeKey("n");
      var put := Call(Update, NodeKind, key);
      var bare := Node(map[]);
      var w0 := World(map[key := bare], map[], map[key := bare], map[], map[], map[], {put}, []);
      var r1 := ReconcileOutcomeSharingCache(w0, "n");
      var r2 := ReconcileOutcomeSharingCache(r1.world.(faults := {}), "n");
      && r1.err == Some(Failed(put))
      && r2.err == None
      && Writes(CallsSince(r1.world, r2.world)) == []
      && key in r2.world.nodes && !Labelled(r2.world.nodes[key].labels)
  {
    var key := NodeKey("n");
    var put := Call(Update, NodeKind, key);
    var get := Call(CachedGet, NodeKind, key);
    var bare := Node(map[]);
    var w0 := World(map[key := bare], map[], map[key := bare], map[], map[], map[], {put}, []);
    assert "node-role.kubernetes.io/worker" in RequiredLabels;
    assert !Labelled(bare.labels);
    var r1 := ReconcileOutcomeSharingCache(w0, "n");
    assert r1.world.nodes == w0.nodes;
    var r2 := ReconcileOutcomeSharingCache(r1.world.(faults := {}), "n");
    assert r2.world.log == r1.world.log + [get];
    assert CallsSince(r1.world, r2.world) == [get];
    assert Writes([get]) == [];
  }

  /** With the cache left alone, a retry after a failed update issues the
      update again, and once it succeeds the server's node is labelled. */
  lemma RetryAfterFailedUpdateReissuesWrite(w: World, name: string)
    requires NodeKey(name) in w.nodeCache && NodeKey(name) in w.nodes
    requires !Labelled(w.nodeCache[NodeKey(name)].labels)
    requires ReconcileOutcome(w, name).err.Some?
    ensures var r1 := ReconcileOutcome(w, name);
      var r2 := ReconcileOutcome(r1.world.(faults := {}), name);
      && r2.err == None
      && Writes(CallsSince(r1.world, r2.world)) == [Call(Update, NodeKind, NodeKey(name))]
      && NodeKey(name) in r2.world.nodes && Labelled(r2.world.nodes[NodeKey(name)].labels)
  {
    var key := NodeKey(name);
    var r1 := ReconcileOutcome(w, name);
    var w1 := r1.world.(faults := {});
    OnlyTheRequestedNodeChanges(w, name);
    assert w1.nodeCache == w.nodeCache && key in w1.nodes;
    MissingLabelsOneUpdate(w1, name);
    var node := w.nodeCache[key];
    var node' := node.(labels := WithRequiredLabels(node.labels));
    assert Write(w1.nodes, w1.faults, Call(Update, NodeKind, key), node') == Ok(w1.nodes[key := node']);
  }
}
