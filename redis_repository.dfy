/** `RedisRepository`: the caller-facing view of a Redis registry. */
module RedisRepositories {
  import opened Base
  import opened Redis

  class RedisRepository {
    const database: RedisDatabase

    constructor (database: RedisDatabase)
      ensures this.database == database
    {
      this.database := database;
    }

    /** `getPool(writable)`: the argument is ignored and a MASTER pool is always
        requested, so no SLAVE pool is ever returned, and the call fails exactly
        when the registry has no MASTER pool. */
    method GetPoolWritable(writable: bool) returns (r: Result<RedisPool, JavaException>)
      ensures Selected(database.pools, database.properties, Master, r)
      ensures r.Success? ==> r.value in database.pools && r.value.poolType == Master
      ensures r.Failure? <==> forall p :: p in database.pools ==> p.poolType != Master
    {
      r := database.GetPool(Master);
      MasterHasNoFallback(database.pools, database.properties, r);
    }

    /** `getPool(type)`: exactly the registry's selection, fallback included. */
    method GetPool(t: PoolType) returns (r: Result<RedisPool, JavaException>)
      ensures Selected(database.pools, database.properties, t, r)
    {
      r := database.GetPool(t);
    }
  }
}
