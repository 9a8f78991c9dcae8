/**
 * The Kubernetes API world that a reconciler talks to: the typed objects it
 * reads and writes, the informer caches its listers read from, and the API
 * servers its clients read from and write to.
 *
 * API failures are injected, not random: a call listed in `faults` fails with
 * `Failed(call)`, and a lookup of a missing key fails with `NotFound(call)`.
 * Every call, cache reads included, is appended to `log`, so "no writes" and
 * "the secret is written before the Deployment" are statements about the log.
 */
module Kube {

  /** An 8-bit byte, the element type of Go's []byte. */
  newtype byte = x: int | 0 <= x < 256
  type Bytes = seq<byte>

  datatype Option<T> = None | Some(value: T)

  /** A namespace/name pair: the key of a ctrl.Request and of every store.
      Cluster-scoped objects (nodes) have the empty namespace. */
  datatype Key = Key(namespace: string, name: string)

  function NodeKey(name: string): Key { Key("", name) }

  datatype Kind = NodeKind | SecretKind | ConfigMapKind | DeploymentKind

  /** `CachedGet` is a lister lookup in an informer cache; `Get` and `Update`
      go to the API server (Update is a full-object write). */
  datatype Verb = CachedGet | Get | Update

  datatype Call = Call(verb: Verb, kind: Kind, key: Key)

  datatype Error =
    | NotFound(call: Call)                   // the typed not-found error of the API
    | Failed(call: Call)                     // any other API failure
    | Rejected(reason: string)               // what a library outside the API (the JSON encoder, the
                                             // certificate library) fails with; only those opaque
                                             // functions produce it, so no model code builds one
    | Wrapped(context: string, cause: Error) // fmt.Errorf("<context>: %v", cause)
  {
    /** errors.IsNotFound: only the API's own not-found error qualifies, not a wrapped one. */
    predicate IsNotFound() { NotFound? }
  }

  datatype Result<T> = Ok(value: T) | Err(error: Error)

  /** The fields of the objects that the reconcilers read or write. A nil
      label or annotation map reads like an empty one and is modelled as one;
      a nil secret data map is `None`, because it serialises differently.
      `Deployment.replicas` stands for the rest of the Deployment, which no
      reconciler touches and which an update carries over unchanged. */
  datatype Node = Node(labels: map<string, string>)
  datatype Secret = Secret(data: Option<map<string, Bytes>>)
  datatype ConfigMap = ConfigMap(data: map<string, string>)
  datatype Deployment = Deployment(replicas: nat, templateAnnotations: map<string, string>)

  /** Go's read of a string map: the zero value "" for a missing key. */
  function Lookup(m: map<string, string>, k: string): string {
    if k in m then m[k] else ""
  }

  /** Go's read of a possibly nil byte-slice map: an empty slice for a missing key. */
  function DataValue(data: Option<map<string, Bytes>>, k: string): Bytes {
    if data.Some? && k in data.value then data.value[k] else []
  }

  /** The outcome of a read call against a store. */
  function Read<T>(store: map<Key, T>, faults: set<Call>, c: Call): Result<T> {
    if c in faults then Err(Failed(c))
    else if c.key in store then Ok(store[c.key])
    else Err(NotFound(c))
  }

  /** The outcome of an update call against a store: the new store, or the error. */
  function Write<T>(store: map<Key, T>, faults: set<Call>, c: Call, obj: T): Result<map<Key, T>> {
    if c in faults then Err(Failed(c))
    else if c.key in store then Ok(store[c.key := obj])
    else Err(NotFound(c))
  }

  /** A snapshot of everything one reconciler can observe or change. The
      caches hold what the listers serve; the other stores are the API servers'. */
  datatype World = World(
    nodeCache: map<Key, Node>,
    secretCache: map<Key, Secret>,
    nodes: map<Key, Node>,
    secrets: map<Key, Secret>,
    configMaps: map<Key, ConfigMap>,
    deployments: map<Key, Deployment>,
    faults: set<Call>,
    log: seq<Call>)
  {
    function Logged(c: Call): World { this.(log := log + [c]) }
  }

  /** What a reconcile invocation leaves behind: the new world and the error
      returned to the dispatcher (ctrl.Result is always the zero value here). */
  datatype Step = Step(world: World, err: Option<Error>)

  /** The update calls among `calls`, in order. */
  function Writes(calls: seq<Call>): seq<Call> {
    if calls == [] then []
    else (if calls[0].verb == Update then [calls[0]] else []) + Writes(calls[1..])
  }

  /** `w'`'s log continues `w`'s. */
  predicate Extends(w: World, w': World) {
    |w.log| <= |w'.log| && w'.log[..|w.log|] == w.log
  }

  /** The calls made between `w` and `w'`: what was appended to the log. */
  function CallsSince(w: World, w': World): seq<Call> {
    if |w.log| <= |w'.log| then w'.log[|w.log|..] else []
  }

  /** `w'` differs from `w` only by calls appended to the log, none of them a write. */
  ghost predicate OnlyReadsSince(w: World, w': World) {
    && w' == w.(log := w'.log)
    && Extends(w, w')
    && Writes(CallsSince(w, w')) == []
  }

  lemma {:induction false} WritesOfReads(calls: seq<Call>)
    requires forall i :: 0 <= i < |calls| ==> calls[i].verb != Update
    ensures Writes(calls) == []
  {
    if calls != [] {
      WritesOfReads(calls[1..]);
    }
  }

  lemma {:induction false} WritesAppend(a: seq<Call>, b: seq<Call>)
    ensures Writes(a + b) == Writes(a) + Writes(b)
  {
    if a == [] {
      assert a + b == b;
    } else {
      var head := if a[0].verb == Update then [a[0]] else [];
      assert Writes(a) == head + Writes(a[1..]);
      assert (a + b)[0] == a[0] && (a + b)[1..] == a[1..] + b;
      assert Writes(a + b) == head + Writes(a[1..] + b);
      WritesAppend(a[1..], b);
      assert head + (Writes(a[1..]) + Writes(b)) == (head + Writes(a[1..])) + Writes(b);
    }
  }

  /** An update call in a sequence of calls is among its writes. */
  lemma {:induction false} WritesHoldsUpdates(calls: seq<Call>, c: Call)
    requires c in calls && c.verb == Update
    ensures c in Writes(calls)
  {
    if calls[0] != c {
      WritesHoldsUpdates(calls[1..], c);
    }
  }

  lemma WritesOfReadThenUpdate(a: Call, b: Call)
    requires a.verb != Update && b.verb == Update
    ensures Writes([a, b]) == [b]
  {
    assert [a, b][1..] == [b] && [b][1..] == [];
    assert Writes([b]) == [b] + Writes([]);
    assert Writes([a, b]) == [] + Writes([b]);
  }

  /** Logging a read adds no write. */
  lemma LoggedReadOnlyReads(w: World, c: Call)
    requires c.verb != Update
    ensures OnlyReadsSince(w, w.Logged(c))
  {
    assert w.Logged(c).log[|w.log|..] == [c];
    WritesOfReads([c]);
  }

  /** The writes of two consecutive stretches of calls add up. */
  lemma WritesCompose(a: World, b: World, c: World)
    requires Extends(a, b) && Extends(b, c)
    ensures Extends(a, c)
    ensures CallsSince(a, c) == CallsSince(a, b) + CallsSince(b, c)
    ensures Writes(CallsSince(a, c)) == Writes(CallsSince(a, b)) + Writes(CallsSince(b, c))
  {
    assert c.log[|a.log|..] == b.log[|a.log|..] + c.log[|b.log|..];
    WritesAppend(CallsSince(a, b), CallsSince(b, c));
  }

  /** No calls, no writes. */
  lemma NothingSinceOnlyReads(w: World)
    ensures OnlyReadsSince(w, w)
  {
    assert w.log[|w.log|..] == [];
  }

  lemma ReadsCompose(a: World, b: World, c: World)
    requires OnlyReadsSince(a, b) && OnlyReadsSince(b, c)
    ensures OnlyReadsSince(a, c)
  {
    WritesCompose(a, b, c);
  }

  /** The API servers and informer caches one reconciler talks to. */
  class Cluster {
    var nodeCache: map<Key, Node>
    var secretCache: map<Key, Secret>
    var nodes: map<Key, Node>
    var secrets: map<Key, Secret>
    var configMaps: map<Key, ConfigMap>
    var deployments: map<Key, Deployment>
    var faults: set<Call>
    var log: seq<Call>

    function View(): World
      reads this
    {
      World(nodeCache, secretCache, nodes, secrets, configMaps, deployments, faults, log)
    }

    constructor (w: World)
      ensures View() == w
    {
      nodeCache, secretCache, nodes := w.nodeCache, w.secretCache, w.nodes;
      secrets, configMaps, deployments := w.secrets, w.configMaps, w.deployments;
      faults, log := w.faults, w.log;
    }

    /** NodeLister.Get(name). */
    method CachedNode(name: string) returns (r: Result<Node>)
      modifies this`log
      ensures var c := Call(CachedGet, NodeKind, NodeKey(name));
        r == Read(nodeCache, faults, c) && View() == old(View()).Logged(c)
    {
      var c := Call(CachedGet, NodeKind, NodeKey(name));
      r := Read(nodeCache, faults, c);
      log := log + [c];
    }

    /** Nodes().Update(node) for the node called `name`. */
    method UpdateNode(name: string, node: Node) returns (err: Option<Error>)
      modifies this`log, this`nodes
      ensures var c := Call(Update, NodeKind, NodeKey(name));
        var w := old(View()).Logged(c);
        match Write(old(nodes), faults, c, node)
        case Ok(n) => err == None && View() == w.(nodes := n)
        case Err(e) => err == Some(e) && View() == w
    {
      var c := Call(Update, NodeKind, NodeKey(name));
      log := log + [c];
      match Write(nodes, faults, c, node)
      case Ok(n) =>
        nodes := n;
        err := None;
      case Err(e) =>
        err := Some(e);
    }

    /** SecretLister.Secrets(key.namespace).Get(key.name). */
    method CachedSecret(key: Key) returns (r: Result<Secret>)
      modifies this`log
      ensures var c := Call(CachedGet, SecretKind, key);
        r == Read(secretCache, faults, c) && View() == old(View()).Logged(c)
    {
      var c := Call(CachedGet, SecretKind, key);
      r := Read(secretCache, faults, c);
      log := log + [c];
    }

    /** Secrets(key.namespace).Get(key.name). */
    method GetSecret(key: Key) returns (r: Result<Secret>)
      modifies this`log
      ensures var c := Call(Get, SecretKind, key);
        r == Read(secrets, faults, c) && View() == old(View()).Logged(c)
    {
      var c := Call(Get, SecretKind, key);
      r := Read(secrets, faults, c);
      log := log + [c];
    }

    /** Secrets(key.namespace).Update(secret). */
    method UpdateSecret(key: Key, secret: Secret) returns (err: Option<Error>)
      modifies this`log, this`secrets
      ensures var c := Call(Update, SecretKind, key);
        var w := old(View()).Logged(c);
        match Write(old(secrets), faults, c, secret)
        case Ok(s) => err == None && View() == w.(secrets := s)
        case Err(e) => err == Some(e) && View() == w
    {
      var c := Call(Update, SecretKind, key);
      log := log + [c];
      match Write(secrets, faults, c, secret)
      case Ok(s) =>
        secrets := s;
        err := None;
      case Err(e) =>
        err := Some(e);
    }

    /** ConfigMaps(key.namespace).Get(key.name). */
    method GetConfigMap(key: Key) returns (r: Result<ConfigMap>)
      modifies this`log
      ensures var c := Call(Get, ConfigMapKind, key);
        r == Read(configMaps, faults, c) && View() == old(View()).Logged(c)
    {
      var c := Call(Get, ConfigMapKind, key);
      r := Read(configMaps, faults, c);
      log := log + [c];
    }

    /** Deployments(key.namespace).Get(key.name). */
    method GetDeployment(key: Key) returns (r: Result<Deployment>)
      modifies this`log
      ensures var c := Call(Get, DeploymentKind, key);
        r == Read(deployments, faults, c) && View() == old(View()).Logged(c)
    {
      var c := Call(Get, DeploymentKind, key);
      r := Read(deployments, faults, c);
      log := log + [c];
    }

    /** Deployments(key.namespace).Update(deployment). */
    method UpdateDeployment(key: Key, deployment: Deployment) returns (err: Option<Error>)
      modifies this`log, this`deployments
      ensures var c := Call(Update, DeploymentKind, key);
        var w := old(View()).Logged(c);
        match Write(old(deployments), faults, c, deployment)
        case Ok(d) => err == None && View() == w.(deployments := d)
        case Err(e) => err == Some(e) && View() == w
    {
      var c := Call(Update, DeploymentKind, key);
      log := log + [c];
      match Write(deployments, faults, c, deployment)
      case Ok(d) =>
        deployments := d;
        err := None;
      case Err(e) =>
        err := Some(e);
    }
  }
}
