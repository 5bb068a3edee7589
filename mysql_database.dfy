/** The MySQL database lifecycle: default data-source properties, the JDBC URL,
    a connect that refuses a second connection and an idempotent cleanup. The
    Hikari pool is an opaque handle. */
module MySql {
  import opened Base

  /** The fields of `MySQLProperties` the lifecycle reads. */
  datatype MySQLProperties = MySQLProperties(
    host: string, port: Int32, username: Option<string>, password: string, database: string, debugging: bool)

  /** The `HikariConfig` a data source is built from, kept as plain data. */
  datatype HikariConfig = HikariConfig(
    jdbcUrl: string, username: Option<string>, password: string, driverClassName: string,
    dataSourceProperties: map<string, string>)

  /** The JDBC driver every configuration names. */
  const DriverClassName := "com.mysql.cj.jdbc.Driver"

  const JdbcPrefix := "jdbc:mysql://"

  /** The data-source properties the default constructor seeds. */
  function DefaultDataSourceProperties(): (m: map<string, string>)
    ensures m.Keys == {"cachePrepStmts", "prepStmtCacheSize", "prepStmtCacheSqlLimit"}
    ensures m["cachePrepStmts"] == "true" && m["prepStmtCacheSize"] == "250" && m["prepStmtCacheSqlLimit"] == "2048"
  {
    map["cachePrepStmts" := "true", "prepStmtCacheSize" := "250", "prepStmtCacheSqlLimit" := "2048"]
  }

  /** The URL `connect(properties)` builds from host, port and database name. */
  function JdbcUrl(host: string, port: Int32, database: string): (url: string)
    ensures |url| > |JdbcPrefix| + |database|
    ensures url[..|JdbcPrefix|] == JdbcPrefix
    ensures url[|url| - |database| - 1..] == "/" + database
  {
    var url := JdbcPrefix + host + ":" + IntToString(port) + "/" + database;
    var head := JdbcPrefix + host + ":" + IntToString(port);
    assert url == head + ("/" + database);
    assert url[..|JdbcPrefix|] == head[..|JdbcPrefix|];
    url
  }

  /** The first position of `c` in `s`, or `|s|` when there is none. */
  function IndexOf(s: string, c: char): (i: nat)
    ensures i <= |s|
    ensures i < |s| ==> s[i] == c
    ensures forall j :: 0 <= j < i ==> s[j] != c
  {
    if s == [] then 0
    else if s[0] == c then 0
    else 1 + IndexOf(s[1..], c)
  }

  /** Reads host, port and database name back from a MySQL JDBC URL: the host runs
      to the first `:`, the port to the next `/`, and the rest is the database. */
  function ParseJdbcUrl(url: string): Option<(string, int, string)> {
    if |url| < |JdbcPrefix| || url[..|JdbcPrefix|] != JdbcPrefix then None
    else ParseHostPortDatabase(url[|JdbcPrefix|..])
  }

  /** `host:port/database`, the host running to the first `:`. */
  function ParseHostPortDatabase(rest: string): Option<(string, int, string)> {
    var colon := IndexOf(rest, ':');
    if colon == |rest| then None
    else
      match ParsePortDatabase(rest[colon + 1..])
      case None => None
      case Some((port, database)) => Some((rest[..colon], port, database))
  }

  /** `port/database`, the port running to the first `/`. */
  function ParsePortDatabase(rest: string): Option<(int, string)> {
    var slash := IndexOf(rest, '/');
    if slash == |rest| then None
    else
      match ParseInt(rest[..slash])
      case None => None
      case Some(port) => Some((port, rest[slash + 1..]))
  }

  /** The first `c` in `a + [c] + b` is the one after `a` when `a` has none. */
  lemma IndexOfAfter(a: string, c: char, b: string)
    requires c !in a
    ensures IndexOf(a + [c] + b, c) == |a|
  {
    var s := a + [c] + b;
    assert s[|a|] == c;
    assert forall j :: 0 <= j < |a| ==> s[j] == a[j];
  }

  lemma PortDatabaseRoundTrip(port: Int32, database: string)
    ensures ParsePortDatabase(IntToString(port) + "/" + database) == Some((port as int, database))
  {
    var digits := IntToString(port);
    var rest := digits + "/" + database;
    IntToStringChars(port);
    assert '/' !in digits;
    IndexOfAfter(digits, '/', database);
    assert rest[..|digits|] == digits;
    assert rest[|digits| + 1..] == database;
    IntToStringRoundTrip(port);
  }

  lemma HostPortDatabaseRoundTrip(host: string, port: Int32, database: string)
    requires ':' !in host
    ensures ParseHostPortDatabase(host + ":" + (IntToString(port) + "/" + database)) == Some((host, port as int, database))
  {
    var tail := IntToString(port) + "/" + database;
    var rest := host + ":" + tail;
    IndexOfAfter(host, ':', tail);
    assert rest[|host| + 1..] == tail;
    assert rest[..|host|] == host;
    PortDatabaseRoundTrip(port, database);
  }

  /** The URL determines host, port and database name, provided the host has no `:`. */
  lemma JdbcUrlRoundTrip(host: string, port: Int32, database: string)
    requires ':' !in host
    ensures ParseJdbcUrl(JdbcUrl(host, port, database)) == Some((host, port as int, database))
  {
    var rest := host + ":" + (IntToString(port) + "/" + database);
    var url := JdbcUrl(host, port, database);
    assert url == JdbcPrefix + rest;
    assert url[..|JdbcPrefix|] == JdbcPrefix;
    assert url[|JdbcPrefix|..] == rest;
    HostPortDatabaseRoundTrip(host, port, database);
  }

  /** A `HikariDataSource`: an opaque connection pool that is open until closed. */
  class HikariDataSource {
    const config: HikariConfig
    var closed: bool
    /** How many times `close()` was called on this pool. */
    var closeCalls: nat

    constructor (config: HikariConfig)
      ensures this.config == config && !closed && closeCalls == 0
    {
      this.config := config;
      closed, closeCalls := false, 0;
    }

    method Close()
      modifies this
      ensures closed && closeCalls == old(closeCalls) + 1
    {
      closed := true;
      closeCalls := closeCalls + 1;
    }
  }

  /** The caller's `Map` of extra data-source properties. The database keeps a
      reference to it, so the caller and the database see the same entries. An
      unmodifiable map (such as one from `Map.of`) throws on every mutation. */
  class PropertyMap {
    var entries: map<string, string>
    const modifiable: bool

    constructor (entries: map<string, string>, modifiable: bool)
      ensures this.entries == entries && this.modifiable == modifiable
    {
      this.entries, this.modifiable := entries, modifiable;
    }

    /** `put(key, value)`. */
    method Put(key: string, value: string) returns (o: Outcome<JavaException>)
      modifies this
      ensures modifiable ==> o == Pass && entries == old(entries)[key := value]
      ensures !modifiable ==> o == Fail(UnsupportedOperationException) && entries == old(entries)
    {
      if !modifiable {
        return Fail(UnsupportedOperationException);
      }
      entries := entries[key := value];
      o := Pass;
    }

    /** `clear()`. */
    method Clear() returns (o: Outcome<JavaException>)
      modifies this
      ensures modifiable ==> o == Pass && entries == map[]
      ensures !modifiable ==> o == Fail(UnsupportedOperationException) && unchanged(this)
    {
      if !modifiable {
        return Fail(UnsupportedOperationException);
      }
      entries := map[];
      o := Pass;
    }
  }

  class MySQLDatabase {
    /** The extra properties handed to every data source: the caller's map itself,
        which `cleanup` clears. */
    const dataSourceProperties: PropertyMap
    var properties: Option<MySQLProperties>
    var dataSource: HikariDataSource?

    /** The default constructor: a new modifiable map holding the three
        statement-cache properties, not connected. */
    constructor ()
      ensures fresh(dataSourceProperties)
      ensures dataSourceProperties.entries == DefaultDataSourceProperties() && dataSourceProperties.modifiable
      ensures properties == None && dataSource == null
    {
      dataSourceProperties := new PropertyMap(DefaultDataSourceProperties(), true);
      properties, dataSource := None, null;
    }

    /** The required-args constructor: keeps the caller's map itself, not a copy;
        not connected. */
    constructor WithDataSourceProperties(dataSourceProperties: PropertyMap)
      ensures this.dataSourceProperties == dataSourceProperties
      ensures properties == None && dataSource == null
    {
      this.dataSourceProperties := dataSourceProperties;
      properties, dataSource := None, null;
    }

    /** `connect(properties, onConnect)`: connects with the URL built from the properties. */
    method Connect(props: MySQLProperties) returns (o: Outcome<JavaException>)
      modifies this
      ensures old(dataSource) != null ==> o == Fail(IllegalStateException("Already connected")) && unchanged(this)
      ensures old(dataSource) == null ==>
        && o == Pass && properties == Some(props)
        && dataSource != null && fresh(dataSource) && !dataSource.closed
        && dataSource.config == HikariConfig(JdbcUrl(props.host, props.port, props.database), props.username,
                                             props.password, DriverClassName, dataSourceProperties.entries)
    {
      o := ConnectWithUri(props, JdbcPrefix + props.host + ":" + IntToString(props.port) + "/" + props.database);
    }

    /** `connect(properties, uri, onConnect)`: refuses when a data source is held;
        otherwise stores the properties and builds a fresh data source whose
        configuration carries the URL, the credentials, the MySQL driver and a
        copy of the entries the shared map holds at this moment. */
    method ConnectWithUri(props: MySQLProperties, uri: string) returns (o: Outcome<JavaException>)
      modifies this
      ensures old(dataSource) != null ==> o == Fail(IllegalStateException("Already connected")) && unchanged(this)
      ensures old(dataSource) == null ==>
        && o == Pass && properties == Some(props)
        && dataSource != null && fresh(dataSource) && !dataSource.closed
        && dataSource.config == HikariConfig(uri, props.username, props.password, DriverClassName, dataSourceProperties.entries)
    {
      if dataSource != null {
        return Fail(IllegalStateException("Already connected"));
      }
      properties := Some(props);
      var entries := dataSourceProperties.entries;
      var config := HikariConfig(uri, props.username, props.password, DriverClassName, map[]);
      var todo := entries.Keys;
      while todo != {}
        invariant todo <= entries.Keys
        invariant config.dataSourceProperties.Keys == entries.Keys - todo
        invariant forall k :: k in config.dataSourceProperties ==> config.dataSourceProperties[k] == entries[k]
        invariant config.(dataSourceProperties := map[]) == HikariConfig(uri, props.username, props.password, DriverClassName, map[])
        decreases todo
      {
        var key :| key in todo;
        config := config.(dataSourceProperties := config.dataSourceProperties[key := entries[key]]);
        todo := todo - {key};
      }
      dataSource := new HikariDataSource(config);
      o := Pass;
    }

    /** `cleanup()`: clears the shared map first. On an unmodifiable map that throws
        before anything else happens, so the properties stay and the data source is
        neither closed nor dropped. Otherwise it forgets the properties, closes the
        data source only when one is held and still open, and drops it. */
    method Cleanup() returns (o: Outcome<JavaException>)
      modifies this, dataSourceProperties, dataSource
      ensures !dataSourceProperties.modifiable ==>
        && o == Fail(UnsupportedOperationException)
        && unchanged(this) && unchanged(dataSourceProperties)
        && (old(dataSource) != null ==> unchanged(old(dataSource)))
      ensures dataSourceProperties.modifiable ==>
        && o == Pass
        && dataSourceProperties.entries == map[] && properties == None && dataSource == null
        && (old(dataSource) != null ==>
              && old(dataSource).closed
              && old(dataSource).closeCalls == old(dataSource.closeCalls) + (if old(dataSource.closed) then 0 else 1))
    {
      o := dataSourceProperties.Clear();
      if o.Fail? {
        return;
      }
      properties := None;
      if dataSource != null && !dataSource.closed {
        dataSource.Close();
      }
      dataSource := null;
    }
  }

  /** A second `cleanup` finds nothing to close and leaves the same state; on an
      unmodifiable map both calls fail and nothing changes. */
  method CleanupTwice(db: MySQLDatabase) returns (first: Outcome<JavaException>, second: Outcome<JavaException>)
    modifies db, db.dataSourceProperties, db.dataSource
    ensures db.dataSourceProperties.modifiable ==>
      && first == Pass && second == Pass
      && db.dataSourceProperties.entries == map[] && db.properties == None && db.dataSource == null
      && (old(db.dataSource) != null ==>
            old(db.dataSource).closeCalls == old(db.dataSource.closeCalls) + (if old(db.dataSource.closed) then 0 else 1))
    ensures !db.dataSourceProperties.modifiable ==>
      && first == Fail(UnsupportedOperationException) && second == first
      && unchanged(db) && unchanged(db.dataSourceProperties)
      && (old(db.dataSource) != null ==> unchanged(old(db.dataSource)))
  {
    first := db.Cleanup();
    second := db.Cleanup();
  }

  /** After a successful `cleanup` a connect succeeds again, but the new data source
      carries no extra properties, since the shared map was cleared. */
  method ReconnectAfterCleanup(db: MySQLDatabase, props: MySQLProperties)
    returns (cleaned: Outcome<JavaException>, o: Outcome<JavaException>)
    modifies db, db.dataSourceProperties, db.dataSource
    ensures db.dataSourceProperties.modifiable ==>
      && cleaned == Pass && o == Pass && db.properties == Some(props)
      && db.dataSource != null && db.dataSource.config.dataSourceProperties == map[]
    ensures !db.dataSourceProperties.modifiable ==>
      && cleaned == Fail(UnsupportedOperationException)
      && o == (if old(db.dataSource) != null then Fail(IllegalStateException("Already connected")) else Pass)
  {
    cleaned := db.Cleanup();
    o := db.Connect(props);
  }

  /** The database and its caller share one map: `cleanup` empties the caller's map. */
  method CleanupEmptiesCallerMap(callerMap: PropertyMap) returns (o: Outcome<JavaException>)
    requires callerMap.modifiable
    modifies callerMap
    ensures o == Pass && callerMap.entries == map[]
  {
    var db := new MySQLDatabase.WithDataSourceProperties(callerMap);
    o := db.Cleanup();
  }

  /** A property the caller adds after construction reaches the next `connect`. */
  method CallerChangeReachesConnect(callerMap: PropertyMap, key: string, value: string, props: MySQLProperties)
    returns (db: MySQLDatabase)
    requires callerMap.modifiable
    modifies callerMap
    ensures db.dataSource != null && db.dataSource.config.dataSourceProperties == old(callerMap.entries)[key := value]
  {
    db := new MySQLDatabase.WithDataSourceProperties(callerMap);
    var put := callerMap.Put(key, value);
    var o := db.Connect(props);
  }
}
