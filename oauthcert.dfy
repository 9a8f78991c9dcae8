/**
 * Hash-gated rotation of the OAuth server's serving certificate
 * (pkg/controllers/oauthcert/syncer.go). The router CA secret lives in the
 * target cluster and is read from its informer cache; the OAuth Deployment,
 * ConfigMap and serving secret live in the control-plane namespace of the
 * management cluster and are read and written through its client. A new
 * serving certificate is issued only when the hash of the router secret's data
 * differs from the hash recorded on the Deployment's pod template.
 */
module Oauthcert {
  import opened Kube

  const OAuthDeploymentName := "oauth-openshift"
  const CertHashAnnotation := "hypershift.openshift.io/router-cert-hash"

  const RouterNamespace := "openshift-ingress"
  const RouterSecretName := "router-certs-default"
  /** The OAuth server's ConfigMap and serving secret share the Deployment's name. */
  const OAuthConfigName := "oauth-openshift"
  const OAuthSecretName := "oauth-openshift"
  const ExternalAddressKey := "externalAddress"
  const TLSCertKey := "tls.crt"
  const TLSKeyKey := "tls.key"
  const ServerCertKey := "server.crt"
  const ServerKeyKey := "server.key"
  /** The lifetime passed to MakeServerCert; the CA's own policy decides validity. */
  const ServerCertLifetime := 0

  function RouterKey(): Key { Key(RouterNamespace, RouterSecretName) }
  function DeploymentKey(namespace: string): Key { Key(namespace, OAuthDeploymentName) }
  function ConfigKey(namespace: string): Key { Key(namespace, OAuthConfigName) }
  function OAuthSecretKey(namespace: string): Key { Key(namespace, OAuthSecretName) }

  /** A 16-byte MD5 digest. */
  type Digest = d: Bytes | |d| == 16 witness [0, 0, 0, 0, 0, 0, 0, 0, 0, 0, 0, 0, 0, 0, 0, 0]

  /** A certificate authority parsed from PEM material, and a serving
      certificate it issued; their inner structure is not modelled. */
  datatype CA = CA(certificate: Bytes, key: Bytes)
  datatype ServerCert = ServerCert(certificate: Bytes, key: Bytes)

  /** The libraries the syncer calls, as opaque and possibly failing functions:
      encoding/json.Marshal, crypto/md5.Sum, crypto.GetCAFromBytes,
      CA.MakeServerCert and TLSCertificateConfig.GetPEMBytes. */
  datatype Crypto = Crypto(
    marshal: Option<map<string, Bytes>> -> Result<Bytes>,
    md5: Bytes -> Digest,
    caFromBytes: (Bytes, Bytes) -> Result<CA>,
    makeServerCert: (CA, set<string>, int) -> Result<ServerCert>,
    pemBytes: ServerCert -> Result<(Bytes, Bytes)>)

  const HexDigits := "0123456789abcdef"

  /** fmt's %x of a byte slice: two lower-case hex digits per byte. */
  function Hex(b: Bytes): (r: string)
    ensures |r| == 2 * |b|
    ensures forall i :: 0 <= i < |r| ==> r[i] in HexDigits
  {
    if b == [] then "" else [HexDigits[b[0] as int / 16], HexDigits[b[0] as int % 16]] + Hex(b[1..])
  }

  lemma HexDigitsDistinct(i: int, j: int)
    requires 0 <= i < 16 && 0 <= j < 16 && HexDigits[i] == HexDigits[j]
    ensures i == j
  {
  }

  /** Two bytes whose hex digit pairs agree are equal. */
  lemma HexPairInjective(x: byte, y: byte)
    requires HexDigits[x as int / 16] == HexDigits[y as int / 16]
    requires HexDigits[x as int % 16] == HexDigits[y as int % 16]
    ensures x == y
  {
    HexDigitsDistinct(x as int / 16, y as int / 16);
    HexDigitsDistinct(x as int % 16, y as int % 16);
  }

  /** Different digests print differently, so comparing hash strings is
      comparing digests. */
  lemma {:induction false} HexInjective(a: Bytes, b: Bytes)
    requires Hex(a) == Hex(b)
    ensures a == b
  {
    if a != [] {
      assert |b| == |a|;
      var ha, hb := Hex(a), Hex(b);
      assert ha == [HexDigits[a[0] as int / 16], HexDigits[a[0] as int % 16]] + Hex(a[1..]);
      assert hb == [HexDigits[b[0] as int / 16], HexDigits[b[0] as int % 16]] + Hex(b[1..]);
      assert ha[0] == hb[0] && ha[1] == hb[1];
      HexPairInjective(a[0], b[0]);
      assert Hex(a[1..]) == ha[2..] == hb[2..] == Hex(b[1..]);
      HexInjective(a[1..], b[1..]);
      assert a == [a[0]] + a[1..] && b == [b[0]] + b[1..];
    }
  }

  /** calculateHash: the MD5 of the JSON encoding of the secret data, in hex.
      It is a function of the data value alone (encoding/json sorts map keys,
      so Go's map iteration order cannot reach it). */
  function CalculateHash(data: Option<map<string, Bytes>>, c: Crypto): (r: Result<string>)
    ensures c.marshal(data).Err? ==> r == Err(c.marshal(data).error)
    ensures c.marshal(data).Ok? ==> r.Ok? && |r.value| == 32
    ensures r.Ok? ==> forall i :: 0 <= i < |r.value| ==> r.value[i] in HexDigits
  {
    match c.marshal(data)
    case Err(e) => Err(e)
    case Ok(json) => Ok(Hex(c.md5(json)))
  }

  /** Two router secrets whose data give the same digest give the same hash,
      and the same hash only comes from the same digest. */
  lemma HashComparesDigests(d1: Option<map<string, Bytes>>, d2: Option<map<string, Bytes>>, c: Crypto)
    requires c.marshal(d1).Ok? && c.marshal(d2).Ok?
    ensures CalculateHash(d1, c) == CalculateHash(d2, c) <==>
            c.md5(c.marshal(d1).value) == c.md5(c.marshal(d2).value)
  {
    if CalculateHash(d1, c) == CalculateHash(d2, c) {
      HexInjective(c.md5(c.marshal(d1).value), c.md5(c.marshal(d2).value));
    }
  }

  /** A hash is never empty, so a pod template without the annotation (which
      reads as "") never counts as up to date. */
  lemma MissingAnnotationIsStale(d: Deployment, data: Option<map<string, Bytes>>, c: Crypto)
    requires CertHashAnnotation !in d.templateAnnotations
    requires CalculateHash(data, c).Ok?
    ensures Lookup(d.templateAnnotations, CertHashAnnotation) != CalculateHash(data, c).value
  {
  }

  /** Lines 110-111 as written: storing into a nil Data map panics, which
      the result `None` stands for. */
  function SetServingCertAsWritten(data: Option<map<string, Bytes>>, crt: Bytes, key: Bytes): (r: Option<map<string, Bytes>>)
    ensures r.None? <==> data.None?
  {
    match data
    case None => None
    case Some(m) => Some(m[ServerCertKey := crt][ServerKeyKey := key])
  }

  /** The secret data with the new serving certificate and key, a nil map
      being initialised first: only those two entries change. */
  function WithServingCert(data: Option<map<string, Bytes>>, crt: Bytes, key: Bytes): (r: map<string, Bytes>)
    ensures r.Keys == (if data.Some? then data.value.Keys else {}) + {ServerCertKey, ServerKeyKey}
    ensures r[ServerCertKey] == crt && r[ServerKeyKey] == key
    ensures data.Some? ==> forall k :: k in data.value && k != ServerCertKey && k != ServerKeyKey ==> r[k] == data.value[k]
  {
    var m := if data.Some? then data.value else map[];
    m[ServerCertKey := crt][ServerKeyKey := key]
  }

  lemma NilDataPanicsAsWritten(crt: Bytes, key: Bytes)
    ensures SetServingCertAsWritten(None, crt, key).None?
    ensures |WithServingCert(None, crt, key)| == 2
  {
    assert WithServingCert(None, crt, key).Keys == {ServerCertKey, ServerKeyKey};
  }

  /** Where the source does not panic, the corrected assignment agrees with it. */
  lemma ServingCertAgreesOnNonNilData(m: map<string, Bytes>, crt: Bytes, key: Bytes)
    ensures SetServingCertAsWritten(Some(m), crt, key) == Some(WithServingCert(Some(m), crt, key))
  {
  }

  // ----- The reconcile, as a function of the world -----

  /** The state reached when every read and computation before the first
      write has succeeded, or the step that stopped short of it. */
  datatype Prepared = Ready(world: World, oauthSecret: Secret, certPEM: Bytes, keyPEM: Bytes) | Abort(step: Step)

  /** One reconcile of `req` by a syncer whose control plane is `namespace`. */
  function SyncOutcome(w: World, namespace: string, req: Key, c: Crypto): Step {
    if req.namespace != RouterNamespace || req.name != RouterSecretName then Step(w, None)
    else
      var get := Call(CachedGet, SecretKind, RouterKey());
      match Read(w.secretCache, w.faults, get)
      case Err(e) => Step(w.Logged(get), if e.IsNotFound() then None else Some(e))
      case Ok(router) =>
        match CalculateHash(router.data, c)
        case Err(e) => Step(w.Logged(get), Some(e))
        case Ok(hash) => CompareOutcome(w.Logged(get), namespace, router, hash, c)
  }

  /** Read the Deployment and rotate only if its recorded hash is stale. */
  function CompareOutcome(w: World, namespace: string, router: Secret, hash: string, c: Crypto): Step {
    var get := Call(Get, DeploymentKind, DeploymentKey(namespace));
    match Read(w.deployments, w.faults, get)
    case Err(e) => Step(w.Logged(get), Some(e))
    case Ok(d) =>
      if Lookup(d.templateAnnotations, CertHashAnnotation) == hash then Step(w.Logged(get), None)
      else RotateOutcome(w.Logged(get), namespace, router, d.(templateAnnotations := d.templateAnnotations[CertHashAnnotation := hash]), c)
  }

  /** Issue a new serving certificate and write the secret, then the Deployment. */
  function RotateOutcome(w: World, namespace: string, router: Secret, d: Deployment, c: Crypto): Step {
    match Prepare(w, namespace, router, c)
    case Abort(step) => step
    case Ready(w', secret, crt, key) => CommitOutcome(w', namespace, secret, crt, key, d)
  }

  /** Everything before the first write: derive the CA, read the external
      address, issue and encode the certificate, read the serving secret. */
  function Prepare(w: World, namespace: string, router: Secret, c: Crypto): Prepared {
    match c.caFromBytes(DataValue(router.data, TLSCertKey), DataValue(router.data, TLSKeyKey))
    case Err(e) => Abort(Step(w, Some(Wrapped("failed to get CA from router CA secret", e))))
    case Ok(ca) =>
      var getConfig := Call(Get, ConfigMapKind, ConfigKey(namespace));
      var w1 := w.Logged(getConfig);
      match Read(w.configMaps, w.faults, getConfig)
      case Err(e) => Abort(Step(w1, Some(Wrapped("failed to get oauth server config", e))))
      case Ok(config) =>
        match c.makeServerCert(ca, {Lookup(config.data, ExternalAddressKey)}, ServerCertLifetime)
        case Err(e) => Abort(Step(w1, Some(Wrapped("failed to make certificate", e))))
        case Ok(cert) =>
          match c.pemBytes(cert)
          case Err(e) => Abort(Step(w1, Some(Wrapped("failed to encode certificate", e))))
          case Ok(pem) =>
            var getSecret := Call(Get, SecretKind, OAuthSecretKey(namespace));
            match Read(w1.secrets, w1.faults, getSecret)
            case Err(e) => Abort(Step(w1.Logged(getSecret), Some(Wrapped("cannot get oauth server secret", e))))
            case Ok(secret) => Ready(w1.Logged(getSecret), secret, pem.0, pem.1)
  }

  /** The two writes, secret first; a failed secret write stops the Deployment write. */
  function CommitOutcome(w: World, namespace: string, secret: Secret, crt: Bytes, key: Bytes, d: Deployment): Step {
    var putSecret := Call(Update, SecretKind, OAuthSecretKey(namespace));
    var putDeployment := Call(Update, DeploymentKind, DeploymentKey(namespace));
    match Write(w.secrets, w.faults, putSecret, secret.(data := Some(WithServingCert(secret.data, crt, key))))
    case Err(e) => Step(w.Logged(putSecret), Some(Wrapped("failed to update oauth secret", e)))
    case Ok(secrets) =>
      var w1 := w.Logged(putSecret).(secrets := secrets).Logged(putDeployment);
      match Write(w.deployments, w.faults, putDeployment, d)
      case Err(e) => Step(w1, Some(e))
      case Ok(deployments) => Step(w1.(deployments := deployments), None)
  }

  class OAuthCertSyncer {
    /** The target cluster's secret lister and the management cluster's client. */
    const cluster: Cluster
    /** The control-plane namespace on the management cluster. */
    const namespace: string
    const crypto: Crypto

    constructor (cluster: Cluster, namespace: string, crypto: Crypto)
      ensures this.cluster == cluster && this.namespace == namespace && this.crypto == crypto
    {
      this.cluster := cluster;
      this.namespace := namespace;
      this.crypto := crypto;
    }

    method Reconcile(req: Key) returns (err: Option<Error>)
      modifies cluster
      ensures var r := SyncOutcome(old(cluster.View()), namespace, req, crypto);
        cluster.View() == r.world && err == r.err
    {
      if req.namespace != RouterNamespace || req.name != RouterSecretName {
        return None;
      }
      ghost var w0 := cluster.View();
      var found := cluster.CachedSecret(RouterKey());
      if found.Err? && !found.error.IsNotFound() {
        return Some(found.error);
      }
      if found.Err? {
        return None;
      }
      var secret := found.value;
      var hashed := CalculateHash(secret.data, crypto);
      if hashed.Err? {
        return Some(hashed.error);
      }
      var hash := hashed.value;
      ghost var w1 := cluster.View();
      assert SyncOutcome(w0, namespace, req, crypto) == CompareOutcome(w1, namespace, secret, hash, crypto);
      var got := cluster.GetDeployment(DeploymentKey(namespace));
      if got.Err? {
        return Some(got.error);
      }
      var deployment := got.value;
      var updateNeeded := false;
      var annotations := deployment.templateAnnotations;
      var currentValue := Lookup(annotations, CertHashAnnotation);
      if currentValue != hash {
        annotations := annotations[CertHashAnnotation := hash];
        updateNeeded := true;
      }
      if !updateNeeded {
        return None;
      }
      deployment := deployment.(templateAnnotations := annotations);
      assert SyncOutcome(w0, namespace, req, crypto) == RotateOutcome(cluster.View(), namespace, secret, deployment, crypto);
      err := Rotate(secret, deployment);
    }

    /** Issue a serving certificate from the router CA for the configured
        external address, store it in the serving secret and write the
        secret, then write the stamped Deployment. */
    method Rotate(secret: Secret, deployment: Deployment) returns (err: Option<Error>)
      modifies cluster
      ensures var r := RotateOutcome(old(cluster.View()), namespace, secret, deployment, crypto);
        cluster.View() == r.world && err == r.err
    {
      ghost var w2 := cluster.View();
      var ca := crypto.caFromBytes(DataValue(secret.data, TLSCertKey), DataValue(secret.data, TLSKeyKey));
      if ca.Err? {
        return Some(Wrapped("failed to get CA from router CA secret", ca.error));
      }
      var config := cluster.GetConfigMap(ConfigKey(namespace));
      if config.Err? {
        return Some(Wrapped("failed to get oauth server config", config.error));
      }
      var hostnames := {Lookup(config.value.data, ExternalAddressKey)};
      var cert := crypto.makeServerCert(ca.value, hostnames, ServerCertLifetime);
      if cert.Err? {
        return Some(Wrapped("failed to make certificate", cert.error));
      }
      var pem := crypto.pemBytes(cert.value);
      if pem.Err? {
        return Some(Wrapped("failed to encode certificate", pem.error));
      }
      var certBytes, keyBytes := pem.value.0, pem.value.1;
      var oauthSecret := cluster.GetSecret(OAuthSecretKey(namespace));
      if oauthSecret.Err? {
        return Some(Wrapped("cannot get oauth server secret", oauthSecret.error));
      }
      assert Prepare(w2, namespace, secret, crypto) == Ready(cluster.View(), oauthSecret.value, certBytes, keyBytes);
      err := Commit(oauthSecret.value, certBytes, keyBytes, deployment);
    }

    /** Store the new certificate and key in the serving secret and write
        it; only if that succeeds, write the Deployment. */
    method Commit(oauthSecret: Secret, certBytes: Bytes, keyBytes: Bytes, deployment: Deployment) returns (err: Option<Error>)
      modifies cluster
      ensures var r := CommitOutcome(old(cluster.View()), namespace, oauthSecret, certBytes, keyBytes, deployment);
        cluster.View() == r.world && err == r.err
    {
      var served := oauthSecret.(data := Some(WithServingCert(oauthSecret.data, certBytes, keyBytes)));
      var failed := cluster.UpdateSecret(OAuthSecretKey(namespace), served);
      if failed.Some? {
        return Some(Wrapped("failed to update oauth secret", failed.value));
      }
      err := cluster.UpdateDeployment(DeploymentKey(namespace), deployment);
    }
  }

  // ----- Properties of a reconcile -----

  /** A request for anything but openshift-ingress/router-certs-default reads
      and writes nothing and succeeds. */
  lemma OutOfScopeDoesNothing(w: World, namespace: string, req: Key, c: Crypto)
    requires req != RouterKey()
    ensures SyncOutcome(w, namespace, req, c) == Step(w, None)
  {
  }

  /** A router secret that is not found is success; any other lookup error
      is returned; neither writes. */
  lemma RouterSecretLookupFailure(w: World, namespace: string, c: Crypto)
    requires Read(w.secretCache, w.faults, Call(CachedGet, SecretKind, RouterKey())).Err?
    ensures var get := Call(CachedGet, SecretKind, RouterKey());
      var e := Read(w.secretCache, w.faults, get).error;
      var r := SyncOutcome(w, namespace, RouterKey(), c);
      && r.world == w.Logged(get)
      && (e.IsNotFound() ==> r.err == None)
      && (!e.IsNotFound() ==> r.err == Some(e))
      && (r.err == None <==> RouterKey() !in w.secretCache && get !in w.faults)
  {
  }

  /** A Deployment whose recorded hash equals the fresh one is converged:
      success, and nothing beyond the two reads. */
  lemma ConvergedHashIsNoop(w: World, namespace: string, c: Crypto)
    requires RouterKey() in w.secretCache && Call(CachedGet, SecretKind, RouterKey()) !in w.faults
    requires CalculateHash(w.secretCache[RouterKey()].data, c).Ok?
    requires DeploymentKey(namespace) in w.deployments && Call(Get, DeploymentKind, DeploymentKey(namespace)) !in w.faults
    requires Lookup(w.deployments[DeploymentKey(namespace)].templateAnnotations, CertHashAnnotation)
             == CalculateHash(w.secretCache[RouterKey()].data, c).value
    ensures SyncOutcome(w, namespace, RouterKey(), c)
            == Step(w.Logged(Call(CachedGet, SecretKind, RouterKey())).Logged(Call(Get, DeploymentKind, DeploymentKey(namespace))), None)
  {
  }

  /** A failed Get of the Deployment is returned as it is, after the two reads. */
  lemma DeploymentGetFailureIsReturned(w: World, namespace: string, c: Crypto)
    requires RouterKey() in w.secretCache && Call(CachedGet, SecretKind, RouterKey()) !in w.faults
    requires CalculateHash(w.secretCache[RouterKey()].data, c).Ok?
    requires Read(w.deployments, w.faults, Call(Get, DeploymentKind, DeploymentKey(namespace))).Err?
    ensures SyncOutcome(w, namespace, RouterKey(), c)
            == Step(Compared(w, namespace), Some(Read(w.deployments, w.faults, Call(Get, DeploymentKind, DeploymentKey(namespace))).error))
  {
  }

  /** A stale or missing hash leads to a rotation, whose Deployment is the one
      read with only the hash annotation set to the fresh hash. */
  lemma StaleHashRotates(w: World, namespace: string, c: Crypto)
    requires RouterKey() in w.secretCache && Call(CachedGet, SecretKind, RouterKey()) !in w.faults
    requires CalculateHash(w.secretCache[RouterKey()].data, c).Ok?
    requires DeploymentKey(namespace) in w.deployments && Call(Get, DeploymentKind, DeploymentKey(namespace)) !in w.faults
    requires Lookup(w.deployments[DeploymentKey(namespace)].templateAnnotations, CertHashAnnotation)
             != CalculateHash(w.secretCache[RouterKey()].data, c).value
    ensures var router := w.secretCache[RouterKey()];
      var hash := CalculateHash(router.data, c).value;
      var d := w.deployments[DeploymentKey(namespace)];
      var w2 := w.Logged(Call(CachedGet, SecretKind, RouterKey())).Logged(Call(Get, DeploymentKind, DeploymentKey(namespace)));
      SyncOutcome(w, namespace, RouterKey(), c)
        == RotateOutcome(w2, namespace, router, d.(templateAnnotations := d.templateAnnotations[CertHashAnnotation := hash]), c)
  {
  }

  /** A failure in CA derivation, the ConfigMap read, certificate issuance,
      PEM encoding or the serving-secret read is returned, and nothing has
      been written; on success nothing has been written either, and the
      secret handed on is the server's. */
  lemma PrepareWritesNothing(w: World, namespace: string, router: Secret, c: Crypto)
    ensures match Prepare(w, namespace, router, c)
      case Abort(step) => step.err.Some? && OnlyReadsSince(w, step.world)
      case Ready(w', secret, _, _) =>
        && OnlyReadsSince(w, w')
        && OAuthSecretKey(namespace) in w.secrets
        && secret == w.secrets[OAuthSecretKey(namespace)]
  {
    var getConfig := Call(Get, ConfigMapKind, ConfigKey(namespace));
    var getSecret := Call(Get, SecretKind, OAuthSecretKey(namespace));
    var w1 := w.Logged(getConfig);
    NothingSinceOnlyReads(w);
    LoggedReadOnlyReads(w, getConfig);
    LoggedReadOnlyReads(w1, getSecret);
    ReadsCompose(w, w1, w1.Logged(getSecret));
  }

  /** The secret is written before the Deployment; if the secret write fails
      the Deployment is not written. The secret written is the server's with
      the new certificate and key; the Deployment written is `d`. */
  lemma CommitOrder(w: World, namespace: string, secret: Secret, crt: Bytes, key: Bytes, d: Deployment)
    ensures var putSecret := Call(Update, SecretKind, OAuthSecretKey(namespace));
      var putDeployment := Call(Update, DeploymentKind, DeploymentKey(namespace));
      var served := secret.(data := Some(WithServingCert(secret.data, crt, key)));
      var r := CommitOutcome(w, namespace, secret, crt, key, d);
      && r.world == w.(log := r.world.log, secrets := r.world.secrets, deployments := r.world.deployments)
      && match Write(w.secrets, w.faults, putSecret, served)
         case Err(e) =>
           && r.world.log == w.log + [putSecret]
           && r.world.secrets == w.secrets && r.world.deployments == w.deployments
           && r.err == Some(Wrapped("failed to update oauth secret", e))
         case Ok(secrets) =>
           && r.world.log == w.log + [putSecret, putDeployment]
           && r.world.secrets == secrets
           && match Write(w.deployments, w.faults, putDeployment, d)
              case Ok(ds) => r.err == None && r.world.deployments == ds
              case Err(e) => r.err == Some(e) && r.world.deployments == w.deployments
  {
    var putSecret := Call(Update, SecretKind, OAuthSecretKey(namespace));
    var putDeployment := Call(Update, DeploymentKind, DeploymentKey(namespace));
    var served := secret.(data := Some(WithServingCert(secret.data, crt, key)));
    var r := CommitOutcome(w, namespace, secret, crt, key, d);
    match Write(w.secrets, w.faults, putSecret, served)
    case Err(e) =>
      assert r == Step(w.Logged(putSecret), Some(Wrapped("failed to update oauth secret", e)));
    case Ok(secrets) =>
      var w1 := w.Logged(putSecret).(secrets := secrets).Logged(putDeployment);
      assert w1.log == w.log + [putSecret, putDeployment];
      match Write(w.deployments, w.faults, putDeployment, d)
      case Err(e) =>
        assert r == Step(w1, Some(e));
      case Ok(ds) =>
        assert r == Step(w1.(deployments := ds), None);
  }

  /** The reads that precede the rotation: the router secret from the cache,
      then the Deployment from the server. */
  function Compared(w: World, namespace: string): World {
    w.Logged(Call(CachedGet, SecretKind, RouterKey())).Logged(Call(Get, DeploymentKind, DeploymentKey(namespace)))
  }

  /** A reconcile of the router secret reaches the writes: the secret was
      found and hashed, the Deployment was found with a stale hash, and every
      step of Prepare succeeded. */
  ghost predicate Commits(w: World, namespace: string, c: Crypto) {
    && RouterKey() in w.secretCache && Call(CachedGet, SecretKind, RouterKey()) !in w.faults
    && CalculateHash(w.secretCache[RouterKey()].data, c).Ok?
    && DeploymentKey(namespace) in w.deployments && Call(Get, DeploymentKind, DeploymentKey(namespace)) !in w.faults
    && Lookup(w.deployments[DeploymentKey(namespace)].templateAnnotations, CertHashAnnotation)
       != CalculateHash(w.secretCache[RouterKey()].data, c).value
    && Prepare(Compared(w, namespace), namespace, w.secretCache[RouterKey()], c).Ready?
  }

  /** The Deployment a committing reconcile writes: the one read, with the fresh hash. */
  ghost function Stamped(w: World, namespace: string, c: Crypto): Deployment
    requires Commits(w, namespace, c)
  {
    var d := w.deployments[DeploymentKey(namespace)];
    d.(templateAnnotations := d.templateAnnotations[CertHashAnnotation := CalculateHash(w.secretCache[RouterKey()].data, c).value])
  }

  /** Every reconcile either only reads, or reads and then commits. */
  lemma SyncCases(w: World, namespace: string, req: Key, c: Crypto)
    ensures var r := SyncOutcome(w, namespace, req, c);
      if req == RouterKey() && Commits(w, namespace, c) then
        var p := Prepare(Compared(w, namespace), namespace, w.secretCache[RouterKey()], c);
        && OnlyReadsSince(w, p.world)
        && r == CommitOutcome(p.world, namespace, p.oauthSecret, p.certPEM, p.keyPEM, Stamped(w, namespace, c))
      else OnlyReadsSince(w, r.world)
  {
    if req != RouterKey() {
      NothingSinceOnlyReads(w);
    } else if Commits(w, namespace, c) {
      var router := w.secretCache[RouterKey()];
      StaleHashRotates(w, namespace, c);
      PrepareWritesNothing(Compared(w, namespace), namespace, router, c);
      ComparedOnlyReads(w, namespace);
      ReadsCompose(w, Compared(w, namespace), Prepare(Compared(w, namespace), namespace, router, c).world);
    } else {
      UncommittedOnlyReads(w, namespace, c);
    }
  }

  /** A reconcile of the router secret that does not reach the writes only reads. */
  lemma UncommittedOnlyReads(w: World, namespace: string, c: Crypto)
    requires !Commits(w, namespace, c)
    ensures OnlyReadsSince(w, SyncOutcome(w, namespace, RouterKey(), c).world)
  {
    var r := SyncOutcome(w, namespace, RouterKey(), c);
    var get := Call(CachedGet, SecretKind, RouterKey());
    LoggedReadOnlyReads(w, get);
    ComparedOnlyReads(w, namespace);
    if RouterKey() !in w.secretCache || get in w.faults || CalculateHash(w.secretCache[RouterKey()].data, c).Err? {
      assert r.world == w.Logged(get);
    } else if DeploymentKey(namespace) !in w.deployments || Call(Get, DeploymentKind, DeploymentKey(namespace)) in w.faults
      || Lookup(w.deployments[DeploymentKey(namespace)].templateAnnotations, CertHashAnnotation)
         == CalculateHash(w.secretCache[RouterKey()].data, c).value
    {
      assert r.world == Compared(w, namespace);
    } else {
      var router := w.secretCache[RouterKey()];
      StaleHashRotates(w, namespace, c);
      PrepareWritesNothing(Compared(w, namespace), namespace, router, c);
      ReadsCompose(w, Compared(w, namespace), r.world);
    }
  }

  /** A reconcile changes nothing but the log, the serving secret (only its
      certificate and key) and the Deployment (only its hash annotation). */
  lemma SyncChangesOnlyServingSecretAndDeployment(w: World, namespace: string, req: Key, c: Crypto)
    ensures var r := SyncOutcome(w, namespace, req, c);
      var sk := OAuthSecretKey(namespace);
      var dk := DeploymentKey(namespace);
      && r.world == w.(log := r.world.log, secrets := r.world.secrets, deployments := r.world.deployments)
      && (r.world.secrets == w.secrets ||
            (sk in w.secrets && exists crt: Bytes, key: Bytes ::
               r.world.secrets == w.secrets[sk := w.secrets[sk].(data := Some(WithServingCert(w.secrets[sk].data, crt, key)))]))
      && (r.world.deployments == w.deployments ||
            (dk in w.deployments && RouterKey() in w.secretCache && CalculateHash(w.secretCache[RouterKey()].data, c).Ok? &&
             r.world.deployments == w.deployments[dk := w.deployments[dk].(templateAnnotations :=
               w.deployments[dk].templateAnnotations[CertHashAnnotation := CalculateHash(w.secretCache[RouterKey()].data, c).value])]))
  {
    SyncCases(w, namespace, req, c);
    if req == RouterKey() && Commits(w, namespace, c) {
      var p := Prepare(Compared(w, namespace), namespace, w.secretCache[RouterKey()], c);
      PrepareWritesNothing(Compared(w, namespace), namespace, w.secretCache[RouterKey()], c);
      CommitChangesOnly(p.world, namespace, p.oauthSecret, p.certPEM, p.keyPEM, Stamped(w, namespace, c));
    }
  }

  /** A commit changes nothing but the log, the serving secret (to `secret`
      with the new PEMs) and the Deployment (to `d`). */
  lemma CommitChangesOnly(w: World, namespace: string, secret: Secret, crt: Bytes, key: Bytes, d: Deployment)
    ensures var r := CommitOutcome(w, namespace, secret, crt, key, d);
      var sk := OAuthSecretKey(namespace);
      var dk := DeploymentKey(namespace);
      && r.world == w.(log := r.world.log, secrets := r.world.secrets, deployments := r.world.deployments)
      && (r.world.secrets == w.secrets ||
            (sk in w.secrets && r.world.secrets == w.secrets[sk := secret.(data := Some(WithServingCert(secret.data, crt, key)))]))
      && (r.world.deployments == w.deployments || (dk in w.deployments && r.world.deployments == w.deployments[dk := d]))
  {
    var putSecret := Call(Update, SecretKind, OAuthSecretKey(namespace));
    var putDeployment := Call(Update, DeploymentKind, DeploymentKey(namespace));
    var served := secret.(data := Some(WithServingCert(secret.data, crt, key)));
    var r := CommitOutcome(w, namespace, secret, crt, key, d);
    match Write(w.secrets, w.faults, putSecret, served)
    case Err(e) =>
      assert r == Step(w.Logged(putSecret), Some(Wrapped("failed to update oauth secret", e)));
    case Ok(secrets) =>
      assert secrets == w.secrets[OAuthSecretKey(namespace) := served];
      var w1 := w.Logged(putSecret).(secrets := secrets).Logged(putDeployment);
      match Write(w.deployments, w.faults, putDeployment, d)
      case Err(e) =>
        assert r == Step(w1, Some(e));
      case Ok(ds) =>
        assert ds == w.deployments[DeploymentKey(namespace) := d];
        assert r == Step(w1.(deployments := ds), None);
  }

  /** Both writes of a committing reconcile report their failures: a failed
      secret update is returned wrapped, a failed Deployment update as it is,
      and the reconcile succeeds only when both succeed. */
  lemma CommittedErrorIsReturned(w: World, namespace: string, c: Crypto)
    requires Commits(w, namespace, c)
    ensures var p := Prepare(Compared(w, namespace), namespace, w.secretCache[RouterKey()], c);
      var served := p.oauthSecret.(data := Some(WithServingCert(p.oauthSecret.data, p.certPEM, p.keyPEM)));
      var r := SyncOutcome(w, namespace, RouterKey(), c);
      match Write(w.secrets, w.faults, Call(Update, SecretKind, OAuthSecretKey(namespace)), served)
      case Err(e) => r.err == Some(Wrapped("failed to update oauth secret", e))
      case Ok(_) =>
        match Write(w.deployments, w.faults, Call(Update, DeploymentKind, DeploymentKey(namespace)), Stamped(w, namespace, c))
        case Err(e) => r.err == Some(e)
        case Ok(_) => r.err == None
  {
    SyncCases(w, namespace, RouterKey(), c);
    var p := Prepare(Compared(w, namespace), namespace, w.secretCache[RouterKey()], c);
    CommitOrder(p.world, namespace, p.oauthSecret, p.certPEM, p.keyPEM, Stamped(w, namespace, c));
  }

  /** The commit's writes: the secret, then the Deployment unless the
      secret write failed. */
  lemma CommitWrites(w: World, namespace: string, secret: Secret, crt: Bytes, key: Bytes, d: Deployment)
    ensures var putSecret := Call(Update, SecretKind, OAuthSecretKey(namespace));
      var putDeployment := Call(Update, DeploymentKind, DeploymentKey(namespace));
      var r := CommitOutcome(w, namespace, secret, crt, key, d);
      && Extends(w, r.world)
      && (Writes(CallsSince(w, r.world)) == [putSecret] || Writes(CallsSince(w, r.world)) == [putSecret, putDeployment])
      && (Writes(CallsSince(w, r.world)) == [putSecret] ==>
            r.err.Some? && r.world.secrets == w.secrets && r.world.deployments == w.deployments)
      && (r.world.deployments != w.deployments ==> Writes(CallsSince(w, r.world)) == [putSecret, putDeployment] && r.err == None)
      && (Writes(CallsSince(w, r.world)) == [putSecret, putDeployment] ==>
            r.world.secrets == w.secrets[OAuthSecretKey(namespace) := secret.(data := Some(WithServingCert(secret.data, crt, key)))])
  {
    var putSecret := Call(Update, SecretKind, OAuthSecretKey(namespace));
    var putDeployment := Call(Update, DeploymentKind, DeploymentKey(namespace));
    var r := CommitOutcome(w, namespace, secret, crt, key, d);
    CommitOrder(w, namespace, secret, crt, key, d);
    assert Writes([putSecret]) == [putSecret];
    assert Writes([putDeployment]) == [putDeployment];
    assert [putSecret] + [putDeployment] == [putSecret, putDeployment];
    WritesAppend([putSecret], [putDeployment]);
    assert CallsSince(w, r.world) == [putSecret] || CallsSince(w, r.world) == [putSecret, putDeployment];
  }

  /** The writes of one reconcile, in order: none, the secret alone, or the
      secret and then the Deployment; and only a committing reconcile writes. */
  lemma SyncWriteOrder(w: World, namespace: string, req: Key, c: Crypto)
    ensures var r := SyncOutcome(w, namespace, req, c);
      var putSecret := Call(Update, SecretKind, OAuthSecretKey(namespace));
      var putDeployment := Call(Update, DeploymentKind, DeploymentKey(namespace));
      var writes := Writes(CallsSince(w, r.world));
      && Extends(w, r.world)
      && (writes == [] || writes == [putSecret] || writes == [putSecret, putDeployment])
      && (writes != [] ==> req == RouterKey() && Commits(w, namespace, c))
  {
    var r := SyncOutcome(w, namespace, req, c);
    SyncCases(w, namespace, req, c);
    if req == RouterKey() && Commits(w, namespace, c) {
      var p := Prepare(Compared(w, namespace), namespace, w.secretCache[RouterKey()], c);
      CommitWrites(p.world, namespace, p.oauthSecret, p.certPEM, p.keyPEM, Stamped(w, namespace, c));
      WritesCompose(w, p.world, r.world);
    }
  }

  /** If the secret write fails the Deployment is not written; the Deployment
      only changes after the secret write succeeded, and then the reconcile
      succeeds; a reconcile without writes changes neither object. */
  lemma SyncPartialWrites(w: World, namespace: string, req: Key, c: Crypto)
    ensures var r := SyncOutcome(w, namespace, req, c);
      var putSecret := Call(Update, SecretKind, OAuthSecretKey(namespace));
      var putDeployment := Call(Update, DeploymentKind, DeploymentKey(namespace));
      var writes := Writes(CallsSince(w, r.world));
      && (writes == [putSecret] ==> r.err.Some? && r.world.secrets == w.secrets && r.world.deployments == w.deployments)
      && (r.world.deployments != w.deployments ==> writes == [putSecret, putDeployment] && r.err == None)
      && (writes == [] ==> r.world.secrets == w.secrets && r.world.deployments == w.deployments)
  {
    var r := SyncOutcome(w, namespace, req, c);
    SyncCases(w, namespace, req, c);
    if req == RouterKey() && Commits(w, namespace, c) {
      var p := Prepare(Compared(w, namespace), namespace, w.secretCache[RouterKey()], c);
      CommitWrites(p.world, namespace, p.oauthSecret, p.certPEM, p.keyPEM, Stamped(w, namespace, c));
      WritesCompose(w, p.world, r.world);
    }
  }

  /** A reconcile that succeeded is a fixpoint under unchanged inputs: the
      next reconcile of the router secret succeeds again and writes nothing. */
  lemma SuccessfulSyncIsFixpoint(w: World, namespace: string, c: Crypto)
    requires SyncOutcome(w, namespace, RouterKey(), c).err == None
    ensures var w1 := SyncOutcome(w, namespace, RouterKey(), c).world;
      var r2 := SyncOutcome(w1, namespace, RouterKey(), c);
      r2.err == None && OnlyReadsSince(w1, r2.world)
  {
    if Commits(w, namespace, c) {
      CommittedSyncIsFixpoint(w, namespace, c);
    } else {
      UncommittedSyncIsFixpoint(w, namespace, c);
    }
  }

  /** A successful reconcile that wrote has stamped the fresh hash, so the
      next one finds the Deployment converged. */
  lemma CommittedSyncIsFixpoint(w: World, namespace: string, c: Crypto)
    requires Commits(w, namespace, c)
    requires SyncOutcome(w, namespace, RouterKey(), c).err == None
    ensures var w1 := SyncOutcome(w, namespace, RouterKey(), c).world;
      var r2 := SyncOutcome(w1, namespace, RouterKey(), c);
      r2.err == None && OnlyReadsSince(w1, r2.world)
  {
    var w1 := SyncOutcome(w, namespace, RouterKey(), c).world;
    var dk := DeploymentKey(namespace);
    SyncCases(w, namespace, RouterKey(), c);
    var p := Prepare(Compared(w, namespace), namespace, w.secretCache[RouterKey()], c);
    SuccessfulCommitStamps(p.world, namespace, p.oauthSecret, p.certPEM, p.keyPEM, Stamped(w, namespace, c));
    assert w1.secretCache == w.secretCache && w1.faults == w.faults;
    assert dk in w1.deployments && w1.deployments[dk] == Stamped(w, namespace, c);
    ConvergedHashIsNoop(w1, namespace, c);
    ComparedOnlyReads(w1, namespace);
  }

  /** A successful commit has written `d` and changed nothing but the log,
      the secrets and that Deployment. */
  lemma SuccessfulCommitStamps(w: World, namespace: string, secret: Secret, crt: Bytes, key: Bytes, d: Deployment)
    requires CommitOutcome(w, namespace, secret, crt, key, d).err == None
    ensures var r := CommitOutcome(w, namespace, secret, crt, key, d);
      && r.world == w.(log := r.world.log, secrets := r.world.secrets, deployments := r.world.deployments)
      && DeploymentKey(namespace) in w.deployments
      && r.world.deployments == w.deployments[DeploymentKey(namespace) := d]
  {
  }

  /** Reading the router secret and then the Deployment writes nothing. */
  lemma ComparedOnlyReads(w: World, namespace: string)
    ensures OnlyReadsSince(w, Compared(w, namespace))
  {
    var get := Call(CachedGet, SecretKind, RouterKey());
    LoggedReadOnlyReads(w, get);
    LoggedReadOnlyReads(w.Logged(get), Call(Get, DeploymentKind, DeploymentKey(namespace)));
    ReadsCompose(w, w.Logged(get), Compared(w, namespace));
  }

  /** A successful reconcile that did not write found the router secret
      absent or the Deployment converged. */
  lemma SuccessWithoutCommit(w: World, namespace: string, c: Crypto)
    requires !Commits(w, namespace, c)
    requires SyncOutcome(w, namespace, RouterKey(), c).err == None
    ensures || (RouterKey() !in w.secretCache && Call(CachedGet, SecretKind, RouterKey()) !in w.faults)
            || (&& RouterKey() in w.secretCache && Call(CachedGet, SecretKind, RouterKey()) !in w.faults
                && CalculateHash(w.secretCache[RouterKey()].data, c).Ok?
                && DeploymentKey(namespace) in w.deployments && Call(Get, DeploymentKind, DeploymentKey(namespace)) !in w.faults
                && Lookup(w.deployments[DeploymentKey(namespace)].templateAnnotations, CertHashAnnotation)
                   == CalculateHash(w.secretCache[RouterKey()].data, c).value)
  {
    if && RouterKey() in w.secretCache && Call(CachedGet, SecretKind, RouterKey()) !in w.faults
       && CalculateHash(w.secretCache[RouterKey()].data, c).Ok?
       && DeploymentKey(namespace) in w.deployments && Call(Get, DeploymentKind, DeploymentKey(namespace)) !in w.faults
       && Lookup(w.deployments[DeploymentKey(namespace)].templateAnnotations, CertHashAnnotation)
          != CalculateHash(w.secretCache[RouterKey()].data, c).value
    {
      StaleHashRotates(w, namespace, c);
      PrepareWritesNothing(Compared(w, namespace), namespace, w.secretCache[RouterKey()], c);
    }
  }

  /** A successful reconcile that did not write only read, and the next one
      sees the same objects and decides the same way. */
  lemma UncommittedSyncIsFixpoint(w: World, namespace: string, c: Crypto)
    requires !Commits(w, namespace, c)
    requires SyncOutcome(w, namespace, RouterKey(), c).err == None
    ensures var w1 := SyncOutcome(w, namespace, RouterKey(), c).world;
      var r2 := SyncOutcome(w1, namespace, RouterKey(), c);
      r2.err == None && OnlyReadsSince(w1, r2.world)
  {
    var w1 := SyncOutcome(w, namespace, RouterKey(), c).world;
    SyncCases(w, namespace, RouterKey(), c);
    assert w1 == w.(log := w1.log);
    SuccessWithoutCommit(w, namespace, c);
    if RouterKey() !in w.secretCache && Call(CachedGet, SecretKind, RouterKey()) !in w.faults {
      RouterSecretLookupFailure(w1, namespace, c);
      LoggedReadOnlyReads(w1, Call(CachedGet, SecretKind, RouterKey()));
    } else {
      ConvergedHashIsNoop(w1, namespace, c);
      ComparedOnlyReads(w1, namespace);
    }
  }

  /** When the secret write succeeds but the Deployment write fails, the
      secret holds the certificate and key just issued while the recorded hash
      stays stale, so the next reconcile rotates again
      (`FailedDeploymentWriteRotatesAgain`). This is the statement about a whole
      reconcile, from its outcome alone; `StaleAfterFailedCommit` is the same
      fact for a reconcile known to commit, and `FailedDeploymentWriteKeepsSecret`
      the fact about the two writes themselves. */
  lemma FailedDeploymentWriteLeavesHashStale(w: World, namespace: string, c: Crypto)
    requires var r := SyncOutcome(w, namespace, RouterKey(), c);
      r.err.Some? && Call(Update, DeploymentKind, DeploymentKey(namespace)) in CallsSince(w, r.world)
    ensures var r := SyncOutcome(w, namespace, RouterKey(), c);
      var sk := OAuthSecretKey(namespace);
      var dk := DeploymentKey(namespace);
      && RouterKey() in w.secretCache && CalculateHash(w.secretCache[RouterKey()].data, c).Ok?
      && dk in r.world.deployments && r.world.deployments == w.deployments
      && Lookup(r.world.deployments[dk].templateAnnotations, CertHashAnnotation) != CalculateHash(w.secretCache[RouterKey()].data, c).value
      && Commits(w, namespace, c)
      && var p := Prepare(Compared(w, namespace), namespace, w.secretCache[RouterKey()], c);
      && sk in w.secrets
      && r.world.secrets == w.secrets[sk := w.secrets[sk].(data := Some(WithServingCert(w.secrets[sk].data, p.certPEM, p.keyPEM)))]
  {
    var r := SyncOutcome(w, namespace, RouterKey(), c);
    var putDeployment := Call(Update, DeploymentKind, DeploymentKey(namespace));
    SyncWriteOrder(w, namespace, RouterKey(), c);
    WritesHoldsUpdates(CallsSince(w, r.world), putDeployment);
    assert Commits(w, namespace, c);
    StaleAfterFailedCommit(w, namespace, c);
  }

  /** A committing reconcile that fails after attempting the Deployment
      write leaves the Deployments as they were and the serving secret
      holding the certificate and key just issued. */
  lemma StaleAfterFailedCommit(w: World, namespace: string, c: Crypto)
    requires Commits(w, namespace, c)
    requires var r := SyncOutcome(w, namespace, RouterKey(), c);
      r.err.Some? && Call(Update, DeploymentKind, DeploymentKey(namespace)) in CallsSince(w, r.world)
    ensures var r := SyncOutcome(w, namespace, RouterKey(), c);
      var sk := OAuthSecretKey(namespace);
      var p := Prepare(Compared(w, namespace), namespace, w.secretCache[RouterKey()], c);
      && r.world.deployments == w.deployments
      && sk in w.secrets
      && r.world.secrets == w.secrets[sk := w.secrets[sk].(data := Some(WithServingCert(w.secrets[sk].data, p.certPEM, p.keyPEM)))]
  {
    var r := SyncOutcome(w, namespace, RouterKey(), c);
    var putDeployment := Call(Update, DeploymentKind, DeploymentKey(namespace));
    SyncCases(w, namespace, RouterKey(), c);
    var p := Prepare(Compared(w, namespace), namespace, w.secretCache[RouterKey()], c);
    CommitWrites(p.world, namespace, p.oauthSecret, p.certPEM, p.keyPEM, Stamped(w, namespace, c));
    WritesCompose(w, p.world, r.world);
    WritesHoldsUpdates(CallsSince(w, r.world), putDeployment);
    PrepareWritesNothing(Compared(w, namespace), namespace, w.secretCache[RouterKey()], c);
    FailedDeploymentWriteKeepsSecret(p.world, namespace, p.oauthSecret, p.certPEM, p.keyPEM, Stamped(w, namespace, c));
  }

  /** After a reconcile whose secret write succeeded and whose Deployment
      write failed, the next reconcile of the router secret, with the same
      inputs, finds the hash still stale and rotates again, from the same
      read Deployment stamped with the fresh hash. */
  lemma FailedDeploymentWriteRotatesAgain(w: World, namespace: string, c: Crypto)
    requires var r := SyncOutcome(w, namespace, RouterKey(), c);
      r.err.Some? && Call(Update, DeploymentKind, DeploymentKey(namespace)) in CallsSince(w, r.world)
    ensures RouterKey() in w.secretCache && CalculateHash(w.secretCache[RouterKey()].data, c).Ok?
    ensures DeploymentKey(namespace) in w.deployments
    ensures var w1 := SyncOutcome(w, namespace, RouterKey(), c).world;
      var router := w.secretCache[RouterKey()];
      var d := w.deployments[DeploymentKey(namespace)];
      && w1.secretCache == w.secretCache && w1.deployments == w.deployments
      && SyncOutcome(w1, namespace, RouterKey(), c)
         == RotateOutcome(Compared(w1, namespace), namespace, router,
              d.(templateAnnotations := d.templateAnnotations[CertHashAnnotation := CalculateHash(router.data, c).value]), c)
  {
    var w1 := SyncOutcome(w, namespace, RouterKey(), c).world;
    FailedDeploymentWriteLeavesHashStale(w, namespace, c);
    SyncCases(w, namespace, RouterKey(), c);
    var p := Prepare(Compared(w, namespace), namespace, w.secretCache[RouterKey()], c);
    CommitChangesOnly(p.world, namespace, p.oauthSecret, p.certPEM, p.keyPEM, Stamped(w, namespace, c));
    assert w1.secretCache == w.secretCache && w1.faults == w.faults;
    StaleHashRotates(w1, namespace, c);
  }

  /** A commit that fails after attempting the Deployment write has written
      the secret and left the Deployments alone. */
  lemma FailedDeploymentWriteKeepsSecret(w: World, namespace: string, secret: Secret, crt: Bytes, key: Bytes, d: Deployment)
    requires var r := CommitOutcome(w, namespace, secret, crt, key, d);
      r.err.Some? && Call(Update, DeploymentKind, DeploymentKey(namespace)) in Writes(CallsSince(w, r.world))
    ensures var r := CommitOutcome(w, namespace, secret, crt, key, d);
      && r.world.deployments == w.deployments
      && r.world.secrets == w.secrets[OAuthSecretKey(namespace) := secret.(data := Some(WithServingCert(secret.data, crt, key)))]
  {
    CommitWrites(w, namespace, secret, crt, key, d);
  }

  /** The first rotation: with no failures anywhere and a Deployment that
      has no hash annotation yet, the reconcile succeeds, the serving secret
      holds the new certificate and key issued for the configured external
      address, and the Deployment records the router secret's hash. */
  lemma FirstRotationStampsDeployment(w: World, namespace: string, c: Crypto)
    requires w.faults == {}
    requires RouterKey() in w.secretCache && c.marshal(w.secretCache[RouterKey()].data).Ok?
    requires DeploymentKey(namespace) in w.deployments
    requires CertHashAnnotation !in w.deployments[DeploymentKey(namespace)].templateAnnotations
    requires ConfigKey(namespace) in w.configMaps && OAuthSecretKey(namespace) in w.secrets
    requires var router := w.secretCache[RouterKey()].data;
      var ca := c.caFromBytes(DataValue(router, TLSCertKey), DataValue(router, TLSKeyKey));
      && ca.Ok?
      && var hosts := {Lookup(w.configMaps[ConfigKey(namespace)].data, ExternalAddressKey)};
      && c.makeServerCert(ca.value, hosts, ServerCertLifetime).Ok?
      && c.pemBytes(c.makeServerCert(ca.value, hosts, ServerCertLifetime).value).Ok?
    ensures var router := w.secretCache[RouterKey()].data;
      var ca := c.caFromBytes(DataValue(router, TLSCertKey), DataValue(router, TLSKeyKey)).value;
      var hosts := {Lookup(w.configMaps[ConfigKey(namespace)].data, ExternalAddressKey)};
      var pem := c.pemBytes(c.makeServerCert(ca, hosts, ServerCertLifetime).value).value;
      var sk := OAuthSecretKey(namespace);
      var dk := DeploymentKey(namespace);
      var r := SyncOutcome(w, namespace, RouterKey(), c);
      && r.err == None
      && r.world.secrets == w.secrets[sk := w.secrets[sk].(data := Some(WithServingCert(w.secrets[sk].data, pem.0, pem.1)))]
      && r.world.deployments == w.deployments[dk := w.deployments[dk].(templateAnnotations :=
           w.deployments[dk].templateAnnotations[CertHashAnnotation := CalculateHash(router, c).value])]
  {
    var router := w.secretCache[RouterKey()];
    MissingAnnotationIsStale(w.deployments[DeploymentKey(namespace)], router.data, c);
    StaleHashRotates(w, namespace, c);
    assert Commits(w, namespace, c);
    SyncCases(w, namespace, RouterKey(), c);
    var p := Prepare(Compared(w, namespace), namespace, router, c);
    PrepareWritesNothing(Compared(w, namespace), namespace, router, c);
    CommitOrder(p.world, namespace, p.oauthSecret, p.certPEM, p.keyPEM, Stamped(w, namespace, c));
  }
}
