/** The Redis pool registry: pool descriptors keyed by (name, type), role-aware
    selection with a SLAVE-to-MASTER fallback, guarded lease acquisition and the
    connect/cleanup lifecycle. Jedis objects are opaque handles. */
module Redis {
  import opened Base

  /** `RedisPoolType`: the role of a pool. */
  datatype PoolType = Master | Slave

  /** `Enum.name()`. */
  function TypeName(t: PoolType): string {
    match t
    case Master => "MASTER"
    case Slave => "SLAVE"
  }

  /** The `JedisPoolConfig` a `JedisPool` is built with, kept as plain data. */
  datatype PoolConfig = PoolConfig(maxWaitMillis: Int64, maxTotal: Int32, maxIdle: Int32, minIdle: Int32, blockWhenExhausted: bool)

  /** The fields of `RedisProperties` the registry reads. */
  datatype RedisProperties = RedisProperties(database: Int32, debugging: bool, poolConfig: PoolConfig)

  /** A command sent on a lease. */
  datatype Command = AuthCommand(password: string) | SelectCommand(index: Int32)

  /** A `Jedis` lease: it records the commands sent on it. */
  class Jedis {
    var commands: seq<Command>

    constructor ()
      ensures commands == []
    {
      commands := [];
    }

    method Auth(password: string)
      modifies this
      ensures commands == old(commands) + [AuthCommand(password)]
    {
      commands := commands + [AuthCommand(password)];
    }

    method Select(index: Int32)
      modifies this
      ensures commands == old(commands) + [SelectCommand(index)]
    {
      commands := commands + [SelectCommand(index)];
    }
  }

  /** A `JedisPool`: an opaque provider that hands out leases until it is closed. */
  class JedisPool {
    const config: PoolConfig
    const host: string
    const port: Int32
    var closed: bool
    /** How many times `close()` was called on this provider. */
    var closeCalls: nat

    constructor (config: PoolConfig, host: string, port: Int32)
      ensures this.config == config && this.host == host && this.port == port
      ensures !closed && closeCalls == 0
    {
      this.config, this.host, this.port := config, host, port;
      closed, closeCalls := false, 0;
    }

    method Close()
      modifies this
      ensures closed && closeCalls == old(closeCalls) + 1
    {
      closed := true;
      closeCalls := closeCalls + 1;
    }

    method GetResource() returns (lease: Jedis)
      requires !closed
      ensures fresh(lease) && lease.commands == []
    {
      lease := new Jedis();
    }
  }

  /** The commands a freshly acquired lease receives before it is handed out:
      AUTH with the pool's password when one is set, then SELECT of the logical database. */
  function LeasePreamble(auth: Option<string>, index: Int32): (cs: seq<Command>)
    ensures 0 < |cs| && cs[|cs| - 1] == SelectCommand(index)
    ensures |cs| == 2 <==> auth.Some?
    ensures auth.Some? ==> cs[0] == AuthCommand(auth.value)
    ensures forall i :: 0 <= i < |cs| && cs[i].AuthCommand? ==> auth == Some(cs[i].password)
  {
    (if auth.Some? then [AuthCommand(auth.value)] else []) + [SelectCommand(index)]
  }

  /** `RedisPool`: a named, typed descriptor of one backing pool. Only `database`
      and `jedisPool` change after construction. */
  class RedisPool {
    const name: string
    const host: string
    const port: Int32
    const auth: Option<string>
    const poolType: PoolType
    var database: RedisDatabase?
    var jedisPool: JedisPool?

    constructor (name: string, host: string, port: Int32, auth: Option<string>, poolType: PoolType)
      ensures this.name == name && this.host == host && this.port == port
      ensures this.auth == auth && this.poolType == poolType
      ensures database == null && jedisPool == null
    {
      this.name, this.host, this.port, this.auth, this.poolType := name, host, port, auth, poolType;
      database, jedisPool := null, null;
    }

    method SetDatabase(database: RedisDatabase?)
      modifies this
      ensures this.database == database && jedisPool == old(jedisPool)
    {
      this.database := database;
    }

    method SetJedisPool(jedisPool: JedisPool?)
      modifies this
      ensures this.jedisPool == jedisPool && database == old(database)
    {
      this.jedisPool := jedisPool;
    }

    /** `equals`: the same object, or another `RedisPool` with the same name and type. */
    predicate Equals(other: object?)
      ensures other == this ==> Equals(other)
      ensures Equals(other) ==> other is RedisPool
    {
      this == other || (other is RedisPool && (other as RedisPool).name == name && (other as RedisPool).poolType == poolType)
    }

    /** `hashCode` = `Objects.hash(name, type)` with Java `int` arithmetic: the
        documented 31 * (31 * 1 + name.hashCode()) + type.hashCode(), modulo 2^32.
        The enum constants hash by identity, so their hashes are a parameter. */
    function HashCode(enumHash: PoolType -> Int32): (h: Int32)
      ensures Congruent32(h, 961 + 31 * Polynomial(name) + enumHash(poolType))
    {
      var nameHash := StringHash(name);
      var inner := Wrap32(31 * 1 + nameHash);
      Congruent32Affine(nameHash, Polynomial(name), 1, 31);
      Congruent32Trans(inner, 31 + nameHash, 31 + Polynomial(name));
      Congruent32Affine(inner, 31 + Polynomial(name), 31, enumHash(poolType));
      Congruent32Trans(Wrap32(31 * inner + enumHash(poolType)), 31 * inner + enumHash(poolType),
                       31 * (31 + Polynomial(name)) + enumHash(poolType));
      Wrap32(31 * inner + enumHash(poolType))
    }

    /** `getResource`: refuses a missing or closed provider, otherwise leases a
        connection, authenticates it when `auth` is set and selects the registry's
        logical database (which needs a bound registry with properties). On the
        `NullPointerException` path the lease has already been taken and sent AUTH;
        it is dropped without being returned to the provider. */
    method GetResource() returns (r: Result<Jedis, JavaException>)
      ensures jedisPool == null ==>
        r == Failure(IllegalStateException("Cannot get a resource from the pool (null)"))
      ensures jedisPool != null && jedisPool.closed ==>
        r == Failure(IllegalStateException("Cannot get a resource from the pool (closed)"))
      ensures jedisPool != null && !jedisPool.closed && (database == null || database.properties.None?) ==>
        r == Failure(NullPointerException)
      ensures jedisPool != null && !jedisPool.closed && database != null && database.properties.Some? ==>
        r.Success? && fresh(r.value) && r.value.commands == LeasePreamble(auth, database.properties.value.database)
    {
      if jedisPool == null || jedisPool.closed {
        var state := if jedisPool == null then "null" else "closed";
        var message := "Cannot get a resource from the pool (" + state + ")";
        assert message == if jedisPool == null then "Cannot get a resource from the pool (null)"
                          else "Cannot get a resource from the pool (closed)";
        return Failure(IllegalStateException(message));
      }
      var jedis := jedisPool.GetResource();
      if auth.Some? {
        jedis.Auth(auth.value);
      }
      if database == null || database.properties.None? {
        return Failure(NullPointerException);
      }
      jedis.Select(database.properties.value.database);
      r := Success(jedis);
    }
  }

  /** `String.hashCode`: h = 31 * h + c over the characters, with `int` wrap-around.
      It agrees, modulo 2^32, with the documented value `Polynomial(s)`. */
  function StringHash(s: string): (h: Int32)
    ensures Congruent32(h, Polynomial(s))
  {
    if s == [] then 0
    else
      var init, last := s[..|s| - 1], s[|s| - 1];
      var prev := StringHash(init);
      PolynomialSnoc(init, last);
      assert init + [last] == s;
      Congruent32Affine(prev, Polynomial(init), 31, last as int);
      Congruent32Trans(Wrap32(31 * prev + last as int), 31 * prev + last as int, Polynomial(s));
      Wrap32(31 * prev + last as int)
  }

  function Pow31(k: nat): nat {
    if k == 0 then 1 else 31 * Pow31(k - 1)
  }

  /** The value the Java documentation gives for `String.hashCode`:
      s[0]*31^(n-1) + s[1]*31^(n-2) + ... + s[n-1], before wrap-around. */
  ghost function Polynomial(s: string): int {
    if s == [] then 0 else (s[0] as int) * Pow31(|s| - 1) + Polynomial(s[1..])
  }

  /** One more character multiplies the polynomial by 31 and adds the character. */
  lemma {:induction false} PolynomialSnoc(s: string, c: char)
    ensures Polynomial(s + [c]) == 31 * Polynomial(s) + c as int
  {
    if s == [] {
      assert [] + [c] == [c];
      assert [c][1..] == [];
    } else {
      var t := s + [c];
      assert t[0] == s[0] && t[1..] == s[1..] + [c];
      PolynomialSnoc(s[1..], c);
      assert Pow31(|t| - 1) == 31 * Pow31(|s| - 1);
      calc {
        Polynomial(t);
        (s[0] as int) * Pow31(|t| - 1) + Polynomial(s[1..] + [c]);
        (s[0] as int) * (31 * Pow31(|s| - 1)) + 31 * Polynomial(s[1..]) + c as int;
        31 * ((s[0] as int) * Pow31(|s| - 1) + Polynomial(s[1..])) + c as int;
      }
    }
  }

  /** `equals` is an equivalence relation. */
  lemma EqualsIsEquivalence(p: RedisPool, q: RedisPool, o: RedisPool)
    ensures p.Equals(p)
    ensures p.Equals(q) ==> q.Equals(p)
    ensures p.Equals(q) && q.Equals(o) ==> p.Equals(o)
  {
  }

  /** `equals` ignores host, port, auth and the bound handles; it never holds for null. */
  lemma EqualsIsKeyEquality(p: RedisPool, q: RedisPool)
    ensures p.Equals(q) <==> p.name == q.name && p.poolType == q.poolType
    ensures !p.Equals(null)
  {
  }

  /** Equal pools have equal hash codes, whatever the enum constants hash to. */
  lemma EqualPoolsHashEqually(p: RedisPool, q: RedisPool, enumHash: PoolType -> Int32)
    requires p.Equals(q)
    ensures p.HashCode(enumHash) == q.HashCode(enumHash)
  {
  }

  /** The messaging service created at connect time. Its subscription and dispatch
      behaviour is not part of this model. */
  class MessagingService {
    const redisDatabase: RedisDatabase

    constructor (redisDatabase: RedisDatabase)
      ensures this.redisDatabase == redisDatabase
    {
      this.redisDatabase := redisDatabase;
    }
  }

  /** The pools of the given type. */
  function OfType(pools: set<RedisPool>, t: PoolType): (ps: set<RedisPool>)
    ensures ps <= pools
    ensures forall p :: p in pools ==> (p in ps <==> p.poolType == t)
  {
    set p | p in pools && p.poolType == t
  }

  /** The outcomes `getPool(type)` may produce: any pool of the requested type;
      with none, SLAVE falls back to MASTER (reading the debugging flag of
      `properties` first) and MASTER fails. */
  ghost predicate Selected(pools: set<RedisPool>, properties: Option<RedisProperties>, t: PoolType, r: Result<RedisPool, JavaException>)
    decreases if t == Slave then 1 else 0
    ensures Selected(pools, properties, t, r) && r.Success? ==>
      r.value in pools && (r.value.poolType == t || (t == Slave && r.value.poolType == Master))
    ensures Selected(pools, properties, t, r) && r.Failure? ==>
      r.error == NullPointerException || r.error.IllegalStateException?
  {
    if OfType(pools, t) != {} then r.Success? && r.value in OfType(pools, t)
    else if t == Slave then
      if properties.None? then r == Failure(NullPointerException)
      else Selected(pools, properties, Master, r)
    else r == Failure(IllegalStateException("Cannot find an available pool for the type " + TypeName(t)))
  }

  /** `RedisDatabase`: the registry. Its pools are a set keyed by (name, type). */
  class RedisDatabase {
    var properties: Option<RedisProperties>
    var pools: set<RedisPool>
    var messagingService: MessagingService?

    /** No two pools share a key, and no two pools share a provider handle. */
    ghost predicate Valid()
      reads this, pools
    {
      && (forall p, q :: p in pools && q in pools && p.name == q.name && p.poolType == q.poolType ==> p == q)
      && (forall p, q :: p in pools && q in pools && p != q && p.jedisPool != null ==> p.jedisPool != q.jedisPool)
    }

    /** Whether a pool with this key is registered. */
    predicate HasKey(name: string, t: PoolType)
      reads this
    {
      exists p :: p in pools && p.name == name && p.poolType == t
    }

    constructor ()
      ensures Valid()
      ensures properties == None && pools == {} && messagingService == null
    {
      properties, pools, messagingService := None, {}, null;
    }

    /** `withPool`: adds a new pool unless one with the same (name, type) is already
        registered, in which case the set is left as it was. */
    method WithPool(name: string, host: string, port: Int32, auth: Option<string>, poolType: PoolType)
      requires Valid()
      modifies this
      ensures Valid()
      ensures properties == old(properties) && messagingService == old(messagingService)
      ensures old(pools) <= pools && HasKey(name, poolType)
      ensures old(HasKey(name, poolType)) ==> pools == old(pools)
      ensures !old(HasKey(name, poolType)) ==>
        && |pools| == |old(pools)| + 1
        && forall q :: q in pools && q !in old(pools) ==>
             && fresh(q)
             && q.name == name && q.host == host && q.port == port && q.auth == auth && q.poolType == poolType
             && q.database == null && q.jedisPool == null
    {
      var pool := new RedisPool(name, host, port, auth, poolType);
      if !(exists p :: p in pools && p.Equals(pool)) {
        pools := pools + {pool};
        assert pools - old(pools) == {pool};
      } else {
        var p :| p in pools && p.Equals(pool);
        assert p.name == name && p.poolType == poolType;
      }
    }

    /** `connect(properties)`: stores the properties, refuses an empty pool set, and
        otherwise binds every pool to this registry and to a new provider built from
        the pool's host and port. There is no double-connect guard: the previous
        providers are replaced without being closed. */
    method Connect(props: RedisProperties) returns (r: Outcome<JavaException>)
      requires Valid()
      modifies this, pools
      ensures Valid()
      ensures properties == Some(props) && pools == old(pools)
      ensures old(pools) == {} <==> r == Fail(IllegalStateException("Found no pools to setup"))
      ensures old(pools) == {} ==> messagingService == old(messagingService)
      ensures old(pools) != {} ==>
        r == Pass && messagingService != null && fresh(messagingService) && messagingService.redisDatabase == this
      ensures forall p :: p in pools ==>
        && p.database == this
        && p.jedisPool != null && fresh(p.jedisPool) && !p.jedisPool.closed && p.jedisPool.closeCalls == 0
        && p.jedisPool.host == p.host && p.jedisPool.port == p.port && p.jedisPool.config == props.poolConfig
      ensures forall p :: p in pools && old(p.jedisPool) != null ==>
        old(p.jedisPool).closed == old(p.jedisPool.closed) && old(p.jedisPool).closeCalls == old(p.jedisPool.closeCalls)
    {
      properties := Some(props);
      if pools == {} {
        return Fail(IllegalStateException("Found no pools to setup"));
      }
      var todo := pools;
      while todo != {}
        invariant todo <= pools && pools == old(pools) && properties == Some(props)
        invariant forall p :: p in pools - todo ==>
          && p.database == this
          && p.jedisPool != null && fresh(p.jedisPool) && !p.jedisPool.closed && p.jedisPool.closeCalls == 0
          && p.jedisPool.host == p.host && p.jedisPool.port == p.port && p.jedisPool.config == props.poolConfig
        invariant forall p :: p in todo ==> p.jedisPool == old(p.jedisPool)
        invariant Valid()
        decreases todo
      {
        var p :| p in todo;
        p.SetDatabase(this);
        var handle := new JedisPool(props.poolConfig, p.host, p.port);
        p.SetJedisPool(handle);
        todo := todo - {p};
      }
      messagingService := new MessagingService(this);
      r := Pass;
    }

    /** `connect(properties, uri)` is not supported by the Redis registry. */
    method ConnectWithUri(props: RedisProperties, uri: string) returns (r: Outcome<JavaException>)
      ensures r == Fail(UnsupportedOperationException)
    {
      r := Fail(UnsupportedOperationException);
    }

    /** `getPool(name)`: some registered pool with that name, or null when there is none. */
    method GetPoolByName(name: string) returns (r: RedisPool?)
      ensures r != null ==> r in pools && r.name == name
      ensures r == null <==> forall p :: p in pools ==> p.name != name
    {
      var todo := pools;
      while todo != {}
        invariant todo <= pools
        invariant forall p :: p in pools - todo ==> p.name != name
        decreases todo
      {
        var p :| p in todo;
        if p.name == name {
          return p;
        }
        todo := todo - {p};
      }
      return null;
    }

    /** `getPool(type)`: collects the pools of the type, falls back from SLAVE to
        MASTER, fails for MASTER, and otherwise picks one of the matches (the source
        picks at random; here the choice is left open). */
    method GetPool(t: PoolType) returns (r: Result<RedisPool, JavaException>)
      ensures Selected(pools, properties, t, r)
      decreases if t == Slave then 1 else 0
    {
      var matches: seq<RedisPool> := [];
      var todo := pools;
      while todo != {}
        invariant todo <= pools
        invariant forall p :: p in matches <==> p in pools - todo && p.poolType == t
        decreases todo
      {
        var p :| p in todo;
        if p.poolType == t {
          matches := matches + [p];
        }
        todo := todo - {p};
      }
      assert forall p :: p in matches <==> p in OfType(pools, t);
      if |matches| == 0 {
        assert OfType(pools, t) == {} by {
          forall p | p in pools ensures p.poolType != t {
            assert p !in matches;
          }
        }
        if t == Slave {
          if properties.None? {
            return Failure(NullPointerException);
          }
          r := GetPool(Master);
          return;
        }
        return Failure(IllegalStateException("Cannot find an available pool for the type " + TypeName(t)));
      }
      var i :| 0 <= i < |matches|;
      assert matches[i] in OfType(pools, t);
      r := Success(matches[i]);
    }

    /** `getPool(writable)`: MASTER when writable, SLAVE otherwise. */
    method GetPoolWritable(writable: bool) returns (r: Result<RedisPool, JavaException>)
      ensures Selected(pools, properties, if writable then Master else Slave, r)
    {
      r := GetPool(if writable then Master else Slave);
    }

    /** `cleanup`: forgets the properties and the messaging service, closes every
        provider that is set and still open, and empties the pool set. */
    method Cleanup()
      requires Valid()
      modifies this, Handles()
      ensures Valid()
      ensures properties == None && pools == {} && messagingService == null
      ensures forall p :: p in old(pools) ==> p.jedisPool == old(p.jedisPool) && p.database == old(p.database)
      ensures forall p :: p in old(pools) && p.jedisPool != null ==>
        && p.jedisPool.closed
        && p.jedisPool.closeCalls == old(p.jedisPool.closeCalls) + (if old(p.jedisPool.closed) then 0 else 1)
    {
      properties := None;
      var todo := pools;
      while todo != {}
        invariant todo <= pools && pools == old(pools) && properties == None
        invariant forall p :: p in pools - todo && p.jedisPool != null ==>
          && p.jedisPool.closed
          && p.jedisPool.closeCalls == old(p.jedisPool.closeCalls) + (if old(p.jedisPool.closed) then 0 else 1)
        invariant forall p :: p in todo && p.jedisPool != null ==>
          p.jedisPool.closed == old(p.jedisPool.closed) && p.jedisPool.closeCalls == old(p.jedisPool.closeCalls)
        decreases todo
      {
        var p :| p in todo;
        var handle := p.jedisPool;
        if handle != null && !handle.closed {
          handle.Close();
        }
        todo := todo - {p};
      }
      pools := {};
      messagingService := null;
    }

    /** The provider handles currently bound to registered pools. */
    ghost function Handles(): set<JedisPool>
      reads this, pools
    {
      set p | p in pools && p.jedisPool != null :: p.jedisPool
    }
  }

  /** When pools of the requested type exist, the selection is one of them. */
  lemma SelectionHonoursType(pools: set<RedisPool>, properties: Option<RedisProperties>, t: PoolType, r: Result<RedisPool, JavaException>)
    requires Selected(pools, properties, t, r)
    requires exists p :: p in pools && p.poolType == t
    ensures r.Success? && r.value in pools && r.value.poolType == t
  {
  }

  /** With no SLAVE pools, a SLAVE request needs properties and then yields a
      MASTER pool, or fails like a MASTER request when there is none. */
  lemma SlaveFallsBackToMaster(pools: set<RedisPool>, properties: Option<RedisProperties>, r: Result<RedisPool, JavaException>)
    requires Selected(pools, properties, Slave, r)
    requires forall p :: p in pools ==> p.poolType != Slave
    ensures properties.None? ==> r == Failure(NullPointerException)
    ensures properties.Some? ==> Selected(pools, properties, Master, r)
    ensures properties.Some? && pools != {} ==> r.Success? && r.value.poolType == Master
  {
    assert OfType(pools, Slave) == {};
    if properties.Some? && pools != {} {
      var p :| p in pools;
      assert p in OfType(pools, Master);
    }
  }

  /** A MASTER request fails exactly when there is no MASTER pool, whatever SLAVE
      pools exist; it never yields a SLAVE pool. */
  lemma MasterHasNoFallback(pools: set<RedisPool>, properties: Option<RedisProperties>, r: Result<RedisPool, JavaException>)
    requires Selected(pools, properties, Master, r)
    ensures r.Failure? <==> forall p :: p in pools ==> p.poolType != Master
    ensures r.Failure? ==> r.error == IllegalStateException("Cannot find an available pool for the type MASTER")
    ensures r.Success? ==> r.value.poolType == Master
  {
    if exists p :: p in pools && p.poolType == Master {
      var p :| p in pools && p.poolType == Master;
      assert p in OfType(pools, Master);
    }
  }

  /** With a single pool of the requested type, that pool is always the one selected. */
  lemma SingleMatchIsDeterministic(pools: set<RedisPool>, properties: Option<RedisProperties>, t: PoolType, only: RedisPool, r: Result<RedisPool, JavaException>)
    requires Selected(pools, properties, t, r)
    requires only in pools && only.poolType == t
    requires forall p :: p in pools && p.poolType == t ==> p == only
    ensures r == Success(only)
  {
    assert only in OfType(pools, t);
  }
}
