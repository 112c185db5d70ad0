/** The CA secret: loaded or generated, and kept the same in the configured and in the controller's own namespace. */
module CASecrets {
  import opened Base

  type Namespace = string
  type Bytes = seq<bv8>

  datatype Key = CACert | CAKey | Other(name: string)

  type Data = map<Key, Bytes>

  datatype CA = CA(cert: Bytes, key: Bytes)

  /** A write request works, is refused, or takes effect while its answer is lost. */
  datatype Reply = Works | Fails | Lost

  /** The CA secret of every namespace that has one, and the calls and write requests received so far. */
  datatype Store = Store(secrets: map<Namespace, Data>, calls: nat, writes: nat)

  datatype Env = Env(
    read: nat -> bool,                  // whether a Get works, by call number
    write: nat -> Reply,                // what becomes of a create or an update, by call number
    parses: (Bytes, Bytes) -> bool,     // certificate and key are well-formed PEM and X.509
    generate: Option<CA>)

  datatype Config = Config(ca: Namespace, self: Namespace)

  datatype Got = Found(data: Data) | NotFound | Error

  datatype Outcome = Outcome(store: Store, ca: Option<CA>)

  // ---------------------------------------------------------------- the operations on values

  function Tick(s: Store): Store {
    s.(calls := s.calls + 1)
  }

  function Get(s: Store, ns: Namespace, env: Env): Got {
    if !env.read(s.calls) then Error
    else if ns in s.secrets then Found(s.secrets[ns])
    else NotFound
  }

  /** A create or an update. */
  function Put(s: Store, ns: Namespace, data: Data, env: Env): Store {
    Store(if env.write(s.calls) == Fails then s.secrets else s.secrets[ns := data], s.calls + 1, s.writes + 1)
  }

  function TwoKeys(ca: CA): Data {
    map[CACert := ca.cert, CAKey := ca.key]
  }

  predicate HasBoth(d: Data) {
    CACert in d && CAKey in d
  }

  function CAIn(d: Data, env: Env): Option<CA> {
    if HasBoth(d) && env.parses(d[CACert], d[CAKey]) then Some(CA(d[CACert], d[CAKey])) else None
  }

  function Load(s: Store, ns: Namespace, env: Env): Option<CA> {
    var got := Get(s, ns, env);
    if got.Found? then CAIn(got.data, env) else None
  }

  function Ensure(s: Store, ns: Namespace, ca: CA, env: Env): (Store, bool) {
    match Get(s, ns, env)
    case Found(d) => (Tick(s), HasBoth(d))
    case Error => (Tick(s), false)
    case NotFound => (Put(Tick(s), ns, TwoKeys(ca), env), env.write(s.calls + 1) == Works)
  }

  function Copy(s: Store, ns: Namespace, data: Data, env: Env): (Store, bool) {
    match Get(s, ns, env)
    case Found(d) =>
      if d == data then (Tick(s), true) else (Put(Tick(s), ns, data, env), env.write(s.calls + 1) == Works)
    case Error => (Tick(s), false)
    case NotFound => (Put(Tick(s), ns, data, env), env.write(s.calls + 1) == Works)
  }

  function Sync(s: Store, ns: Namespace, ca: CA, env: Env): Outcome {
    var (after, ok) := Copy(s, ns, TwoKeys(ca), env);
    Outcome(after, if ok then Some(ca) else None)
  }

  function GenerateAndEnsure(s: Store, ns: Namespace, env: Env): Outcome {
    if env.generate.None? then Outcome(s, None)
    else
      var (after, ok) := Ensure(s, ns, env.generate.value, env);
      Outcome(after, if ok then env.generate else None)
  }

  function LoadOrCreate(s: Store, cfg: Config, env: Env): Outcome {
    var loaded, s1 := Load(s, cfg.ca, env), Tick(s);
    if loaded.Some? then
      if cfg.ca != cfg.self then Sync(s1, cfg.self, loaded.value, env) else Outcome(s1, loaded)
    else if cfg.ca != cfg.self then
      var own, s2 := Load(s1, cfg.self, env), Tick(s1);
      var r := if own.Some? then Outcome(s2, own) else GenerateAndEnsure(s2, cfg.self, env);
      if r.ca.None? then r else Sync(r.store, cfg.ca, r.ca.value, env)
    else GenerateAndEnsure(s1, cfg.ca, env)
  }

  // ---------------------------------------------------------------- the objects

  class ApiServer {
    const env: Env
    var store: Store

    constructor (env: Env, store: Store)
      ensures this.env == env && this.store == store
    {
      this.env, this.store := env, store;
    }

    method GetSecret(ns: Namespace) returns (got: Got)
      modifies this
      ensures got == Get(old(store), ns, env) && store == Tick(old(store))
    {
      got := Get(store, ns, env);
      store := Tick(store);
    }

    method WriteSecret(ns: Namespace, data: Data) returns (ok: bool)
      modifies this
      ensures store == Put(old(store), ns, data, env) && ok == (env.write(old(store).calls) == Works)
    {
      ok := env.write(store.calls) == Works;
      store := Put(store, ns, data, env);
    }
  }

  /** Equality of two data maps: equal sizes and every entry of the first in the second. */
  method MapsEqual(a: Data, b: Data) returns (same: bool)
    ensures same <==> a == b
  {
    assert |a| == |a.Keys| && |b| == |b.Keys|;
    if |a| != |b| {
      return false;
    }
    var rest := a.Keys;
    while rest != {}
      invariant rest <= a.Keys
      invariant forall k | k in a && k !in rest :: k in b && a[k] == b[k]
      decreases rest
    {
      var k :| k in rest;
      if k !in b || a[k] != b[k] {
        return false;
      }
      rest := rest - {k};
    }
    SubsetOfSameSize(a.Keys, b.Keys);
    return true;
  }

  class SecretManager {
    const server: ApiServer
    const ns: Namespace

    constructor (server: ApiServer, ns: Namespace)
      ensures this.server == server && this.ns == ns
    {
      this.server, this.ns := server, ns;
    }

    method LoadCAFromSecret() returns (ca: Option<CA>)
      modifies server
      ensures ca == Load(old(server.store), ns, server.env) && server.store == Tick(old(server.store))
    {
      var got := server.GetSecret(ns);
      if !got.Found? {
        return None;
      }
      if CACert !in got.data {
        return None;
      }
      if CAKey !in got.data {
        return None;
      }
      var cert, key := got.data[CACert], got.data[CAKey];
      return if server.env.parses(cert, key) then Some(CA(cert, key)) else None;
    }

    /** An existing secret is never changed. */
    method EnsureCASecret(ca: CA) returns (ok: bool)
      modifies server
      ensures (server.store, ok) == Ensure(old(server.store), ns, ca, server.env)
      ensures ns in old(server.store).secrets ==> server.store.secrets == old(server.store).secrets
      ensures ok ==> ns in server.store.secrets && HasBoth(server.store.secrets[ns])
      ensures !server.env.read(old(server.store).calls) ==>
        !ok && server.store.secrets == old(server.store).secrets && server.store.writes == old(server.store).writes
    {
      var got := server.GetSecret(ns);
      if got.Found? {
        if CACert !in got.data {
          return false;
        }
        if CAKey !in got.data {
          return false;
        }
        return true;
      }
      if !got.NotFound? {
        return false;
      }
      ok := server.WriteSecret(ns, map[CACert := ca.cert, CAKey := ca.key]);
    }

    method CopyCASecretData(data: Data) returns (ok: bool)
      modifies server
      ensures (server.store, ok) == Copy(old(server.store), ns, data, server.env)
      ensures ok ==> ns in server.store.secrets && server.store.secrets[ns] == data
      ensures !server.env.read(old(server.store).calls) ==>
        !ok && server.store.secrets == old(server.store).secrets && server.store.writes == old(server.store).writes
    {
      var got := server.GetSecret(ns);
      if got.Found? {
        var same := MapsEqual(got.data, data);
        if same {
          return true;
        }
        ok := server.WriteSecret(ns, data);
        return;
      }
      if !got.NotFound? {
        return false;
      }
      ok := server.WriteSecret(ns, data);
    }
  }

  class SecretSync {
    const server: ApiServer
    const cfg: Config
    var ca: Option<CA>

    constructor (server: ApiServer, cfg: Config)
      ensures this.server == server && this.cfg == cfg && ca == None
    {
      this.server, this.cfg, ca := server, cfg, None;
    }

    method SyncCAToNamespace(ca: CA, target: Namespace) returns (ok: bool)
      modifies server
      ensures (server.store, ok) == Copy(old(server.store), target, TwoKeys(ca), server.env)
    {
      var data := map[CACert := ca.cert, CAKey := ca.key];
      var mgr := new SecretManager(server, target);
      ok := mgr.CopyCASecretData(data);
    }

    method LoadOrCreateCA() returns (loaded: Option<CA>)
      modifies server
      ensures Outcome(server.store, loaded) == LoadOrCreate(old(server.store), cfg, server.env)
    {
      hide Get, Put, CAIn, Tick;
      var crossNamespace := cfg.ca != cfg.self;
      var caSecretMgr := new SecretManager(server, cfg.ca);
      loaded := caSecretMgr.LoadCAFromSecret();
      if loaded.Some? {
        if crossNamespace {
          var ok := SyncCAToNamespace(loaded.value, cfg.self);
          return if ok then loaded else None;
        }
        return;
      }
      if crossNamespace {
        var selfSecretMgr := new SecretManager(server, cfg.self);
        loaded := selfSecretMgr.LoadCAFromSecret();
        if loaded.None? {
          if server.env.generate.None? {
            return None;
          }
          loaded := server.env.generate;
          var ok := selfSecretMgr.EnsureCASecret(loaded.value);
          if !ok {
            return None;
          }
        }
        var ok := SyncCAToNamespace(loaded.value, cfg.ca);
        return if ok then loaded else None;
      }
      if server.env.generate.None? {
        return None;
      }
      loaded := server.env.generate;
      var ok := caSecretMgr.EnsureCASecret(loaded.value);
      return if ok then loaded else None;
    }

    /** Keeps the CA for later use; a failure leaves the controller without one. */
    method Start() returns (ok: bool)
      modifies this, server
      ensures var r := LoadOrCreate(old(server.store), cfg, server.env);
        server.store == r.store && ok == r.ca.Some? && ca == if ok then r.ca else old(ca)
    {
      var loaded := LoadOrCreateCA();
      if loaded.None? {
        return false;
      }
      ca := loaded;
      return true;
    }
  }

  // ---------------------------------------------------------------- one call

  ghost predicate ReadsWork(env: Env) {
    forall i :: env.read(i)
  }

  ghost predicate Reliable(env: Env) {
    ReadsWork(env) && forall i :: env.write(i) == Works
  }

  /** The secret of this namespace gives the CA. */
  predicate Holds(s: Store, ns: Namespace, ca: CA) {
    ns in s.secrets && HasBoth(s.secrets[ns]) && s.secrets[ns][CACert] == ca.cert && s.secrets[ns][CAKey] == ca.key
  }

  function Stored(s: Store, ns: Namespace, env: Env): Option<CA> {
    if ns in s.secrets then CAIn(s.secrets[ns], env) else None
  }

  /** The secret has both keys, but they do not parse. */
  predicate Corrupt(s: Store, ns: Namespace, env: Env) {
    ns in s.secrets && HasBoth(s.secrets[ns]) && Stored(s, ns, env).None?
  }

  predicate GoodGenerator(env: Env) {
    env.generate.Some? ==> env.parses(env.generate.value.cert, env.generate.value.key)
  }

  /** The controller's own secret is corrupt and the configured namespace gives no CA. */
  predicate Stuck(s: Store, cfg: Config, env: Env) {
    Corrupt(s, cfg.self, env) && Stored(s, cfg.ca, env).None?
  }

  ghost predicate BothHold(r: Outcome, cfg: Config)
    requires r.ca.Some?
  {
    Holds(r.store, cfg.ca, r.ca.value) && Holds(r.store, cfg.self, r.ca.value)
  }

  lemma ConvergesLoaded(s: Store, cfg: Config, env: Env)
    requires Reliable(env) && Stored(s, cfg.ca, env).Some?
    ensures LoadOrCreate(s, cfg, env).ca.Some? && BothHold(LoadOrCreate(s, cfg, env), cfg)
  {
  }

  /** With two namespaces, the fallback ends with the configured one written; its own side holds unless it was corrupt. */
  lemma ConvergesFromOwn(s: Store, cfg: Config, env: Env)
    requires Reliable(env) && GoodGenerator(env) && LoadOrCreate(s, cfg, env).ca.Some?
    requires cfg.ca != cfg.self && Stored(s, cfg.ca, env).None?
    ensures BothHold(LoadOrCreate(s, cfg, env), cfg) <==> !Corrupt(s, cfg.self, env)
  {
    var own, s2 := Stored(s, cfg.self, env), Tick(Tick(s));
    assert Load(Tick(s), cfg.self, env) == own;
    var r := if own.Some? then Outcome(s2, own) else GenerateAndEnsure(s2, cfg.self, env);
    assert LoadOrCreate(s, cfg, env) == Sync(r.store, cfg.ca, r.ca.value, env);
    hide LoadOrCreate;
  }

  /**
   * Without API failures, a successful call leaves both namespaces holding the returned CA, except exactly when it
   * started from a stuck store.
   */
  lemma ConvergesIff(s: Store, cfg: Config, env: Env)
    requires Reliable(env) && GoodGenerator(env) && LoadOrCreate(s, cfg, env).ca.Some?
    ensures BothHold(LoadOrCreate(s, cfg, env), cfg) <==> !Stuck(s, cfg, env)
  {
    if Stored(s, cfg.ca, env).Some? {
      ConvergesLoaded(s, cfg, env);
      hide LoadOrCreate, BothHold;
    } else if cfg.ca != cfg.self {
      ConvergesFromOwn(s, cfg, env);
      hide LoadOrCreate, BothHold;
    } else {
      assert LoadOrCreate(s, cfg, env) == GenerateAndEnsure(Tick(s), cfg.ca, env);
      hide LoadOrCreate;
    }
  }

  /** When the API and the generator work, only an own secret with one of the keys missing makes a call fail. */
  lemma SucceedsIff(s: Store, cfg: Config, env: Env)
    requires Reliable(env) && env.generate.Some?
    ensures LoadOrCreate(s, cfg, env).ca.Some?
       <==> (Stored(s, cfg.ca, env).Some? || cfg.self !in s.secrets || HasBoth(s.secrets[cfg.self]))
  {
  }

  /** A CA that the configured namespace gives is what the call returns, and its secret is not touched. */
  lemma LoadableIsKept(s: Store, cfg: Config, env: Env)
    requires Stored(s, cfg.ca, env).Some? && env.read(s.calls)
    ensures var r := LoadOrCreate(s, cfg, env);
      && cfg.ca in r.store.secrets && r.store.secrets[cfg.ca] == s.secrets[cfg.ca]
      && (r.ca.Some? ==> r.ca == Stored(s, cfg.ca, env))
  {
  }

  ghost predicate OnlyFirstReadFails(s: Store, env: Env) {
    !env.read(s.calls) && (forall i | i != s.calls :: env.read(i)) && forall i :: env.write(i) == Works
  }

  /**
   * That needs the first read to work. If that one read fails, a CA other than the stored one is returned unless the
   * controller's own, different, namespace gives the same CA; and with two namespaces the stored one is then replaced.
   */
  lemma FailedReadKeepsIff(s: Store, cfg: Config, env: Env)
    requires Stored(s, cfg.ca, env).Some? && OnlyFirstReadFails(s, env)
    requires env.generate.Some? && env.generate != Stored(s, cfg.ca, env)
    requires LoadOrCreate(s, cfg, env).ca.Some?
    ensures var r, was := LoadOrCreate(s, cfg, env), Stored(s, cfg.ca, env);
      && (r.ca == was <==> cfg.ca != cfg.self && Stored(s, cfg.self, env) == was)
      && (if cfg.ca != cfg.self then Holds(r.store, cfg.ca, r.ca.value) else r.store.secrets == s.secrets)
  {
  }

  /** One failed read, and the CA that every client certificate was issued by is gone from the store. */
  lemma FailedReadReplacesCA()
    ensures var kept, other := CA([1], [1]), CA([2], [2]);
      var env := Env(i => i != 0, i => Works, (c, k) => true, Some(other));
      var r := LoadOrCreate(Store(map["kube-system" := TwoKeys(kept)], 0, 0), Config("kube-system", "etcdauto"), env);
      r.ca == Some(other) && r.store.secrets == map["kube-system" := TwoKeys(other), "etcdauto" := TwoKeys(other)]
  {
    var kept, other := CA([1], [1]), CA([2], [2]);
    assert other.cert[0] != kept.cert[0];
    assert TwoKeys(other)[CACert] != TwoKeys(kept)[CACert];
  }

  // ---------------------------------------------------------------- one call, whatever fails

  lemma CopyTells(s: Store, ns: Namespace, data: Data, env: Env)
    ensures var (after, ok) := Copy(s, ns, data, env);
      && (ok ==> ns in after.secrets && after.secrets[ns] == data)
      && (after.secrets == s.secrets || after.secrets == s.secrets[ns := data])
      && (ok && (forall i :: env.write(i) != Works) ==> after.secrets == s.secrets && after.writes == s.writes)
      && (!env.read(s.calls) ==> !ok && after.secrets == s.secrets && after.writes == s.writes)
  {
  }

  lemma EnsureTells(s: Store, ns: Namespace, ca: CA, env: Env)
    ensures var (after, ok) := Ensure(s, ns, ca, env);
      && (ok ==> ns in after.secrets && HasBoth(after.secrets[ns]))
      && (after.secrets == s.secrets || (ns !in s.secrets && after.secrets == s.secrets[ns := TwoKeys(ca)]))
      && (ok && (forall i :: env.write(i) != Works) ==> after.secrets == s.secrets && after.writes == s.writes)
      && (!env.read(s.calls) ==> !ok && after.secrets == s.secrets && after.writes == s.writes)
  {
  }

  lemma LoadTells(s: Store, ns: Namespace, env: Env)
    ensures Load(s, ns, env) == if env.read(s.calls) then Stored(s, ns, env) else None
    ensures Stored(s, ns, env).Some? ==> Holds(s, ns, Stored(s, ns, env).value)
  {
  }

  /** What a call does after the first read, on the store as it was. */
  lemma CallTells(s: Store, cfg: Config, env: Env)
    ensures var r, first := LoadOrCreate(s, cfg, env), if env.read(s.calls) then Stored(s, cfg.ca, env) else None;
      var own := if env.read(s.calls + 1) then Stored(s, cfg.self, env) else None;
      r == if first.Some? then
             if cfg.ca != cfg.self then Sync(Tick(s), cfg.self, first.value, env) else Outcome(Tick(s), first)
           else if cfg.ca == cfg.self then GenerateAndEnsure(Tick(s), cfg.ca, env)
           else if own.Some? then Sync(Tick(Tick(s)), cfg.ca, own.value, env)
           else
             var made := GenerateAndEnsure(Tick(Tick(s)), cfg.self, env);
             if made.ca.None? then made else Sync(made.store, cfg.ca, made.ca.value, env)
  {
    hide CAIn, Sync, GenerateAndEnsure;
  }

  /** The secrets after a call are the old ones, but for the CA's two keys in one or both namespaces. */
  ghost predicate Wrote(s: Store, r: Store, cfg: Config, ca: CA) {
    forall ns ::
      if ns in r.secrets then (ns in s.secrets && r.secrets[ns] == s.secrets[ns])
                           || ((ns == cfg.ca || ns == cfg.self) && r.secrets[ns] == TwoKeys(ca))
      else ns !in s.secrets
  }

  /** Whatever fails, a CA is returned only if both namespaces have a complete secret, the configured one with it. */
  lemma ReturnedIsStored(s: Store, cfg: Config, env: Env)
    requires LoadOrCreate(s, cfg, env).ca.Some?
    ensures var r := LoadOrCreate(s, cfg, env);
      && cfg.ca in r.store.secrets && HasBoth(r.store.secrets[cfg.ca])
      && cfg.self in r.store.secrets && HasBoth(r.store.secrets[cfg.self])
      && (cfg.ca != cfg.self ==> Holds(r.store, cfg.ca, r.ca.value))
      && (env.read(s.calls) && Stored(s, cfg.ca, env).Some? ==> BothHold(r, cfg))
  {
    CallTells(s, cfg, env);
    LoadTells(s, cfg.ca, env);
    LoadTells(s, cfg.self, env);
    hide LoadOrCreate, CAIn, Stored, Copy, Ensure;
    if env.read(s.calls) && Stored(s, cfg.ca, env).Some? {
      CopyTells(Tick(s), cfg.self, TwoKeys(Stored(s, cfg.ca, env).value), env);
    } else if cfg.ca == cfg.self {
      if env.generate.Some? {
        EnsureTells(Tick(s), cfg.ca, env.generate.value, env);
      }
    } else if env.read(s.calls + 1) && Stored(s, cfg.self, env).Some? {
      CopyTells(Tick(Tick(s)), cfg.ca, TwoKeys(Stored(s, cfg.self, env).value), env);
    } else if env.generate.Some? {
      var made := GenerateAndEnsure(Tick(Tick(s)), cfg.self, env);
      EnsureTells(Tick(Tick(s)), cfg.self, env.generate.value, env);
      CopyTells(made.store, cfg.ca, TwoKeys(env.generate.value), env);
    }
  }

  /** The CA that a call works with: loaded from the configured namespace, or from its own, or generated. */
  function Candidate(s: Store, cfg: Config, env: Env): Option<CA> {
    if env.read(s.calls) && Stored(s, cfg.ca, env).Some? then Stored(s, cfg.ca, env)
    else if cfg.ca != cfg.self && env.read(s.calls + 1) && Stored(s, cfg.self, env).Some? then Stored(s, cfg.self, env)
    else env.generate
  }

  /** Whatever fails, no other CA is returned or written, and no other namespace is written. */
  lemma OnlyTheCandidate(s: Store, cfg: Config, env: Env)
    ensures var r := LoadOrCreate(s, cfg, env);
      && (r.ca.Some? ==> r.ca == Candidate(s, cfg, env))
      && (if Candidate(s, cfg, env).Some? then Wrote(s, r.store, cfg, Candidate(s, cfg, env).value)
          else r.store.secrets == s.secrets)
  {
    CallTells(s, cfg, env);
    hide LoadOrCreate, CAIn, Stored, Copy, Ensure;
    if env.read(s.calls) && Stored(s, cfg.ca, env).Some? {
      CopyTells(Tick(s), cfg.self, TwoKeys(Stored(s, cfg.ca, env).value), env);
    } else if cfg.ca == cfg.self {
      if env.generate.Some? {
        EnsureTells(Tick(s), cfg.ca, env.generate.value, env);
      }
    } else if env.read(s.calls + 1) && Stored(s, cfg.self, env).Some? {
      CopyTells(Tick(Tick(s)), cfg.ca, TwoKeys(Stored(s, cfg.self, env).value), env);
    } else if env.generate.Some? {
      var made := GenerateAndEnsure(Tick(Tick(s)), cfg.self, env);
      EnsureTells(Tick(Tick(s)), cfg.self, env.generate.value, env);
      CopyTells(made.store, cfg.ca, TwoKeys(env.generate.value), env);
    }
  }

  /** While no read works no CA is returned and nothing is written. */
  lemma NoReadNoCA(s: Store, cfg: Config, env: Env)
    requires forall i :: !env.read(i)
    ensures var r := LoadOrCreate(s, cfg, env);
      r.ca.None? && r.store.secrets == s.secrets && r.store.writes == s.writes
  {
    CallTells(s, cfg, env);
    hide LoadOrCreate, CAIn, Stored, Copy, Ensure;
    if env.generate.Some? {
      EnsureTells(Tick(s), cfg.ca, env.generate.value, env);
      EnsureTells(Tick(Tick(s)), cfg.self, env.generate.value, env);
    }
  }

  /** While no write is acknowledged, a CA is returned only if nothing had to be written. */
  lemma NoAnswerNoNewCA(s: Store, cfg: Config, env: Env)
    requires (forall i :: env.write(i) != Works) && LoadOrCreate(s, cfg, env).ca.Some?
    ensures var r := LoadOrCreate(s, cfg, env);
      r.store.secrets == s.secrets && r.store.writes == s.writes
  {
    CallTells(s, cfg, env);
    hide LoadOrCreate, CAIn, Stored, Copy, Ensure;
    if env.read(s.calls) && Stored(s, cfg.ca, env).Some? {
      CopyTells(Tick(s), cfg.self, TwoKeys(Stored(s, cfg.ca, env).value), env);
    } else if cfg.ca == cfg.self {
      EnsureTells(Tick(s), cfg.ca, env.generate.value, env);
    } else if env.read(s.calls + 1) && Stored(s, cfg.self, env).Some? {
      CopyTells(Tick(Tick(s)), cfg.ca, TwoKeys(Stored(s, cfg.self, env).value), env);
    } else {
      var made := GenerateAndEnsure(Tick(Tick(s)), cfg.self, env);
      EnsureTells(Tick(Tick(s)), cfg.self, env.generate.value, env);
      CopyTells(made.store, cfg.ca, TwoKeys(env.generate.value), env);
    }
  }

  /** A copy from the c-th request on works: the read does, and so does the write if one is needed. */
  predicate Copies(secrets: map<Namespace, Data>, ns: Namespace, ca: CA, c: nat, env: Env) {
    env.read(c) && ((ns in secrets && secrets[ns] == TwoKeys(ca)) || env.write(c + 1) == Works)
  }

  /** The exact condition for success, for every store and every pattern of failures. */
  lemma CallSucceedsIff(s: Store, cfg: Config, env: Env)
    ensures var c, both := s.calls, cfg.ca != cfg.self;
      LoadOrCreate(s, cfg, env).ca.Some? <==>
        if env.read(c) && Stored(s, cfg.ca, env).Some? then
          both ==> Copies(s.secrets, cfg.self, Stored(s, cfg.ca, env).value, c + 1, env)
        else if both && env.read(c + 1) && Stored(s, cfg.self, env).Some? then
          Copies(s.secrets, cfg.ca, Stored(s, cfg.self, env).value, c + 2, env)
        else
          var g := if both then c + 2 else c + 1;
          && env.generate.Some? && env.read(g)
          && (if cfg.self in s.secrets then HasBoth(s.secrets[cfg.self]) else env.write(g + 1) == Works)
          && (both ==> Copies(s.secrets, cfg.ca, env.generate.value, if cfg.self in s.secrets then g + 1 else g + 2, env))
  {
    CallTells(s, cfg, env);
    hide LoadOrCreate, CAIn, Stored, HasBoth;
  }

  // ---------------------------------------------------------------- any number of calls

  /** The controller is restarted again and again; every start is one call, with its own failures and generator. */
  function Calls(s: Store, cfg: Config, envs: seq<Env>): (r: seq<Outcome>)
    ensures |r| == |envs|
    decreases |envs|
  {
    if envs == [] then []
    else
      var first := LoadOrCreate(s, cfg, envs[0]);
      [first] + Calls(first.store, cfg, envs[1..])
  }

  ghost predicate Usable(env: Env, like: Env) {
    (forall c, k :: env.parses(c, k) == like.parses(c, k)) && ReadsWork(env) && GoodGenerator(env)
  }

  /** The CA in force: the configured namespace's, or else the controller's own. */
  function InForce(s: Store, cfg: Config, env: Env): Option<CA> {
    if Stored(s, cfg.ca, env).Some? then Stored(s, cfg.ca, env) else Stored(s, cfg.self, env)
  }

  /** A namespace is written the CA's two keys or not at all; success means that it gives this CA. */
  lemma SyncWrites(s: Store, ns: Namespace, ca: CA, env: Env)
    requires ReadsWork(env) && env.parses(ca.cert, ca.key)
    ensures var r := Sync(s, ns, ca, env);
      && (r.store.secrets == s.secrets || r.store.secrets == s.secrets[ns := TwoKeys(ca)])
      && (r.ca.Some? ==> r.ca == Some(ca) && Stored(r.store, ns, env) == Some(ca))
    ensures CAIn(TwoKeys(ca), env) == Some(ca)
  {
  }

  lemma GenerateWrites(s: Store, ns: Namespace, env: Env)
    requires ReadsWork(env) && GoodGenerator(env) && !Corrupt(s, ns, env)
    ensures env.generate.Some? ==> CAIn(TwoKeys(env.generate.value), env) == env.generate
    ensures Stored(s, ns, env).None? ==>
      var r := GenerateAndEnsure(s, ns, env);
      && (r.ca.Some? ==> r.ca == env.generate)
      && ((r.store.secrets == s.secrets && r.ca.None?)
          || (env.generate.Some? && r.store.secrets == s.secrets[ns := TwoKeys(env.generate.value)]))
  {
  }

  lemma OwnCallKeepsCA(s: Store, cfg: Config, env: Env)
    requires Usable(env, env) && !Stuck(s, cfg, env) && Stored(s, cfg.ca, env).None? && cfg.ca != cfg.self
    ensures var r := LoadOrCreate(s, cfg, env);
      && !Stuck(r.store, cfg, env)
      && (InForce(s, cfg, env).Some? ==> InForce(r.store, cfg, env) == InForce(s, cfg, env))
      && (r.ca.Some? ==> r.ca == InForce(r.store, cfg, env))
  {
    var own, s2 := Stored(s, cfg.self, env), Tick(Tick(s));
    assert Load(Tick(s), cfg.self, env) == own;
    assert Stored(s2, cfg.self, env) == own;
    GenerateWrites(s2, cfg.self, env);
    var r := if own.Some? then Outcome(s2, own) else GenerateAndEnsure(s2, cfg.self, env);
    assert LoadOrCreate(s, cfg, env) == if r.ca.None? then r else Sync(r.store, cfg.ca, r.ca.value, env);
    if r.ca.Some? {
      SyncWrites(r.store, cfg.ca, r.ca.value, env);
    }
    hide Sync, GenerateAndEnsure, LoadOrCreate, CAIn, Load;
  }

  /** One call, whatever becomes of its writes: a CA in force stays so, and no other is returned. */
  lemma CallKeepsCA(s: Store, cfg: Config, env: Env)
    requires Usable(env, env) && !Stuck(s, cfg, env)
    ensures var r := LoadOrCreate(s, cfg, env);
      && !Stuck(r.store, cfg, env)
      && (InForce(s, cfg, env).Some? ==> InForce(r.store, cfg, env) == InForce(s, cfg, env))
      && (r.ca.Some? ==> r.ca == InForce(r.store, cfg, env))
  {
    if Stored(s, cfg.ca, env).Some? {
      LoadableIsKept(s, cfg, env);
      hide LoadOrCreate;
    } else if cfg.ca != cfg.self {
      OwnCallKeepsCA(s, cfg, env);
      hide LoadOrCreate;
    } else {
      var r := GenerateAndEnsure(Tick(s), cfg.ca, env);
      assert LoadOrCreate(s, cfg, env) == r;
      GenerateWrites(Tick(s), cfg.ca, env);
      hide LoadOrCreate, GenerateAndEnsure, CAIn;
    }
  }

  lemma SameParser(s: Store, cfg: Config, env: Env, like: Env)
    requires Usable(env, like)
    ensures Stuck(s, cfg, env) == Stuck(s, cfg, like) && InForce(s, cfg, env) == InForce(s, cfg, like)
  {
  }

  lemma {:induction false} CallsReturnOneCA(s: Store, cfg: Config, envs: seq<Env>, like: Env) returns (ca: Option<CA>)
    requires !Stuck(s, cfg, like) && forall e | e in envs :: Usable(e, like)
    ensures InForce(s, cfg, like).Some? ==> ca == InForce(s, cfg, like)
    ensures forall i | 0 <= i < |envs| && Calls(s, cfg, envs)[i].ca.Some? :: Calls(s, cfg, envs)[i].ca == ca
    decreases |envs|
  {
    ca := InForce(s, cfg, like);
    if envs != [] {
      var env := envs[0];
      var r := LoadOrCreate(s, cfg, env);
      SameParser(s, cfg, env, like);
      SameParser(r.store, cfg, env, like);
      CallKeepsCA(s, cfg, env);
      hide LoadOrCreate, Stuck, InForce, Usable;
      ca := CallsReturnOneCA(r.store, cfg, envs[1..], like);
    }
  }

  /**
   * However often the controller is restarted and whatever becomes of its writes, all successful starts return the
   * same CA, if reads work and the store does not begin stuck.
   */
  lemma AllStartsAgree(s: Store, cfg: Config, envs: seq<Env>, like: Env, i: nat, j: nat)
    requires !Stuck(s, cfg, like) && forall e | e in envs :: Usable(e, like)
    requires i < |envs| && j < |envs|
    ensures var r := Calls(s, cfg, envs);
      r[i].ca.Some? && r[j].ca.Some? ==> r[i].ca == r[j].ca
  {
    var ca := CallsReturnOneCA(s, cfg, envs, like);
  }

  /** After a converged call the next one returns the same CA, and writes unless the own secret has just the two keys. */
  lemma SecondCall(s: Store, cfg: Config, env: Env, again: Env)
    requires Reliable(env) && Reliable(again) && Usable(env, again) && !Stuck(s, cfg, env)
    requires LoadOrCreate(s, cfg, env).ca.Some?
    ensures var r := LoadOrCreate(s, cfg, env);
      var r2 := LoadOrCreate(r.store, cfg, again);
      && r2.ca == r.ca
      && cfg.self in r.store.secrets
      && (r2.store.writes == r.store.writes <==> cfg.ca == cfg.self || r.store.secrets[cfg.self] == TwoKeys(r.ca.value))
  {
    ConvergesIff(s, cfg, env);
  }

  /** From the third call on, nothing is written. */
  lemma ThirdCallWritesNothing(s: Store, cfg: Config, env: Env, again: Env, third: Env)
    requires Reliable(env) && Reliable(again) && Reliable(third) && Usable(env, third) && Usable(again, third)
    requires !Stuck(s, cfg, env) && LoadOrCreate(s, cfg, env).ca.Some?
    ensures var r2 := LoadOrCreate(LoadOrCreate(s, cfg, env).store, cfg, again);
      var r3 := LoadOrCreate(r2.store, cfg, third);
      r3.ca == r2.ca && r3.store.writes == r2.store.writes && r3.store.secrets == r2.store.secrets
  {
    var r := LoadOrCreate(s, cfg, env);
    ConvergesIff(s, cfg, env);
    hide GenerateAndEnsure, Ensure;
    assert Stored(r.store, cfg.ca, again) == r.ca;
    var r2 := LoadOrCreate(r.store, cfg, again);
    assert cfg.ca != cfg.self ==> cfg.self in r2.store.secrets && r2.store.secrets[cfg.self] == TwoKeys(r.ca.value);
    assert Stored(r2.store, cfg.ca, third) == r.ca;
  }
}
