# DatabaseLibrary core, modelled in Dafny

This project models the core of a small Java library that wraps two database clients.

- **Redis.** `RedisDatabase` is a registry of named, typed (MASTER/SLAVE) `RedisPool`s.
  - `withPool` adds a pool unless one with the same (name, type) key is already registered.
  - `connect` binds every pool to a new Jedis provider.
  - `getPool(type)` picks a pool of the requested type. A SLAVE request falls back to MASTER; a MASTER request fails.
  - `cleanup` closes every open provider and empties the registry.
  - `RedisPool.getResource` leases a connection, authenticates it and selects the logical database.
  - `RedisRepository` always asks for a MASTER pool.
- **MySQL.** `MySQLDatabase` seeds three statement-cache data-source properties and builds the JDBC URL. The database shares the caller's property map. `connect` refuses a second connection. `cleanup` clears that shared map, which fails on an unmodifiable map; otherwise it can be called any number of times.
- **Tables.** `Table.getCreateQuery` renders a `CREATE TABLE` statement from the column descriptors (`IntegerColumn`, `VarcharColumn`, `LongColumn`). It enforces two rules: at most one auto-increment column, and an auto-increment column needs a primary key.
- **Repository helpers.** `MySQLRepository` provides the insert and query helpers. Each one:
  - checks that the number of `?` characters matches the number of columns;
  - binds column i to parameter i + 1;
  - reports `SQLException`s to the optional handler;
  - returns the update count, 0, or -1.

How the model is built:

- Lombok-generated constructors, getters and setters become named Dafny constructors and plain field access.
- The Java class hierarchy of columns becomes one `Column` class with a `ColumnKind` tag.
- Java `null` becomes `Option` or a nullable reference.
- Java exceptions become `Result`/`Outcome` values carrying a `JavaException`.
- Java `int` arithmetic in `hashCode` is wrapped explicitly (`Wrap32`).
- JDBC and Jedis are stand-in classes:
  - A `Connection` follows a `Script` that says which calls throw, and records every call made on it. The helpers are proved to make exactly the calls, and raise exactly the callback events, of a specification function (`InsertRun`, `QueryRun`, `ExecuteRun`).
  - A `JedisPool` or `HikariDataSource` is an open/closed handle that counts its `close()` calls.
  - The data-source property `Map` handed to `MySQLDatabase` is a `PropertyMap` object shared with the caller. It holds its entries and whether it can be modified; `put` and `clear` on an unmodifiable map throw UnsupportedOperationException.
- Every loop of the source is a Dafny loop with invariants: counting `?`, binding columns, counting auto-increment columns, appending column and key definitions, walking the pool set and copying the data-source properties.

`MySQLRepository.java` refers to `MySQLDatabase` of its own package (`impl/MySQLDatabase.java`). That is an older copy of the MySQL database class. Its `dataSource` field and getter behave the same as those of `impl/mysql/MySQLDatabase.java`, so the repository here holds the lifecycle class modelled in `MySql`.

## Model

| member | source | states |
|---|---|---|
| Base.Wrap32 | src/main/java/me/braydon/database/impl/redis/RedisPool.java:49-52 | the result is a 32-bit signed value congruent to the argument modulo 2^32 (Java `int` overflow) |
| Base.NatToStringValue | src/main/java/me/braydon/database/impl/mysql/MySQLDatabase.java:45 | the decimal digits of a natural number read back to that number |
| Base.IntToStringRoundTrip | src/main/java/me/braydon/database/impl/mysql/MySQLDatabase.java:45 | the decimal rendering of any integer (the port in the URL, a column length) parses back to it |
| Base.IntToStringChars | src/main/java/me/braydon/database/impl/mysql/MySQLDatabase.java:45 | a rendered integer is non-empty and holds only digits after an optional leading '-', so it contains neither ':' nor '/' |
| Columns.TypeNamesAreDistinct | src/main/java/me/braydon/database/impl/data/Column.java:35 | the three `getType` names are equal only for the same subclass, and are non-empty and free of backquotes |
| Columns.TypeName | src/main/java/me/braydon/database/impl/data/impl/IntegerColumn.java:38-41 | `getType` is "INT" exactly for an IntegerColumn, "VARCHAR" exactly for a VarcharColumn and "LONG" exactly for a LongColumn (VarcharColumn.java:26-29, LongColumn.java:30-33) |
| Columns.ValueString | src/main/java/me/braydon/database/impl/MySQLRepository.java:114 | `value.toString()`: a String value is itself, and an Integer or Long value's rendering parses back to the number |
| Columns.Column.IntegerWithValue | src/main/java/me/braydon/database/impl/data/impl/IntegerColumn.java:16-19 | `IntegerColumn(name, value)` goes through `Column(name, value)`: length -1, not nullable, no auto-increment, the value typed as Integer |
| Columns.Column.IntegerNullable | src/main/java/me/braydon/database/impl/data/impl/IntegerColumn.java:21-23 | length 0, no value, no auto-increment, nullability as given |
| Columns.Column.IntegerAutoIncrement | src/main/java/me/braydon/database/impl/data/impl/IntegerColumn.java:25-27 | length 0, no value, auto-increment and nullability as given |
| Columns.Column.Integer | src/main/java/me/braydon/database/impl/data/impl/IntegerColumn.java:29-32 | length, auto-increment and nullability as given, no value |
| Columns.Column.VarcharWithValue | src/main/java/me/braydon/database/impl/data/impl/VarcharColumn.java:14-16 | length -1, not nullable, the value typed as String |
| Columns.Column.Varchar | src/main/java/me/braydon/database/impl/data/impl/VarcharColumn.java:18-20 | length and nullability as given, no value |
| Columns.Column.LongWithValue | src/main/java/me/braydon/database/impl/data/impl/LongColumn.java:14-16 | length -1, not nullable, the value typed as Long |
| Columns.Column.LongNullable | src/main/java/me/braydon/database/impl/data/impl/LongColumn.java:18-20 | length 0, no value, nullability as given |
| Columns.Column.Long | src/main/java/me/braydon/database/impl/data/impl/LongColumn.java:22-24 | length and nullability as given, no value |
| Columns.Column.SetValue | src/main/java/me/braydon/database/impl/data/Column.java:13-16 | the value is the only thing the setter changes, and it keeps the subclass's type |
| Columns.Column.BoundValue | src/main/java/me/braydon/database/impl/MySQLRepository.java:114 | a column is bound to SQL null exactly when its value is null |
| Tables.Table.constructor | src/main/java/me/braydon/database/impl/data/Table.java:13-17 | the required-args constructor leaves the primary keys unset |
| Tables.Table.WithPrimaryKeys | src/main/java/me/braydon/database/impl/data/Table.java:13-17 | the all-args constructor stores name, columns and primary keys |
| Tables.Table.GetCreateQuery | src/main/java/me/braydon/database/impl/data/Table.java:25-67 | the builder algorithm (count, append with trailing separators, strip two characters, append keys, close) yields exactly the statement or exception of `CreateQuery` |
| Tables.CountAutoIncrement | src/main/java/me/braydon/database/impl/data/Table.java:27-32 | the loop counts exactly the IntegerColumns with auto-increment set |
| Tables.AppendColumns | src/main/java/me/braydon/database/impl/data/Table.java:36-50 | after the loop the builder holds every column definition in array order, each followed by ", " |
| Tables.AppendColumn | src/main/java/me/braydon/database/impl/data/Table.java:37-49 | one column appends backquoted name, type, "(length)" only for a positive length, " NOT NULL" for a non-nullable column and " AUTO_INCREMENT" for an auto-increment IntegerColumn, then ", " |
| Tables.AppendPrimaryKeys | src/main/java/me/braydon/database/impl/data/Table.java:58-63 | with at least one key, appends ", PRIMARY KEY (" and the backquoted keys joined by ", ", then ")" |
| Tables.ColumnsStripped | src/main/java/me/braydon/database/impl/data/Table.java:51-52 | dropping the last two characters removes exactly the trailing ", " (or, with no columns, the " (" itself) |
| Tables.TerminatedIsJoinPlusSeparator | src/main/java/me/braydon/database/impl/data/Table.java:36-52 | appending each part with ", " and stripping the last two characters equals joining the parts with ", " |
| Tables.StripLastSeparator | src/main/java/me/braydon/database/impl/data/Table.java:51-52 | stripping two characters from a separator-terminated builder leaves the prefix plus the joined parts |
| Tables.CreateQueryRejects | src/main/java/me/braydon/database/impl/data/Table.java:27-55 | the query fails exactly when more than one column auto-increments, or one does and there are no primary keys (null or empty) |
| Tables.AutoIncrementCountZero | src/main/java/me/braydon/database/impl/data/Table.java:27-32 | the count is zero exactly when no column auto-increments |
| Tables.TwoAutoIncrementColumnsRejected | src/main/java/me/braydon/database/impl/data/Table.java:27-34 | any two auto-increment columns make the count at least two, hence the "Inappropriate amount" exception |
| Tables.CreateQuery | src/main/java/me/braydon/database/impl/data/Table.java:25-67 | both rejections are IllegalArgumentExceptions; a successful statement starts with "CREATE TABLE ", carries "IF NOT EXISTS " exactly when asked (else the backquoted name follows at once) and ends with ");" |
| Tables.HeadFrame | src/main/java/me/braydon/database/impl/data/Table.java:35 | the head is "CREATE TABLE ", the optional "IF NOT EXISTS ", then the backquoted name |
| Tables.PrimaryKeyClauseShape | src/main/java/me/braydon/database/impl/data/Table.java:54-63 | a PRIMARY KEY clause appears exactly when the key array is non-null and non-empty, and then starts with ", PRIMARY KEY (" and ends with ")" |
| Tables.ColumnLeadEnding | src/main/java/me/braydon/database/impl/data/Table.java:39-42 | the name, type and length part of a definition ends in a type letter or ')', never in a flag's ending |
| Tables.ColumnDefinitionFlags | src/main/java/me/braydon/database/impl/data/Table.java:39-48 | a rendered column definition determines whether the length was positive, whether the column is nullable and whether it auto-increments |
| Tables.FlagsParsed | src/main/java/me/braydon/database/impl/data/Table.java:44-48 | the NOT NULL and AUTO_INCREMENT suffixes read back to the flags that produced them |
| Tables.DefinitionsSnoc | src/main/java/me/braydon/database/impl/data/Table.java:36-50 | one more loop iteration appends the next column's definition and ", " |
| Redis.LeasePreamble | src/main/java/me/braydon/database/impl/redis/RedisPool.java:33-35 | a lease receives AUTH with the pool's password exactly when one is set, and always ends with SELECT of the logical database |
| Redis.RedisPool.constructor | src/main/java/me/braydon/database/impl/redis/RedisPool.java:15-22 | the key fields are stored and the registry and provider start unset |
| Redis.RedisPool.SetDatabase | src/main/java/me/braydon/database/impl/redis/RedisPool.java:21 | only the registry reference changes |
| Redis.RedisPool.SetJedisPool | src/main/java/me/braydon/database/impl/redis/RedisPool.java:22 | only the provider reference changes |
| Redis.RedisPool.GetResource | src/main/java/me/braydon/database/impl/redis/RedisPool.java:29-37 | a null or closed provider gives IllegalStateException with "(null)"/"(closed)"; an unbound registry or one without properties gives NullPointerException; otherwise a fresh lease with the AUTH/SELECT preamble |
| Redis.EqualsIsEquivalence | src/main/java/me/braydon/database/impl/redis/RedisPool.java:39-47 | `equals` is reflexive, symmetric and transitive |
| Redis.RedisPool.Equals | src/main/java/me/braydon/database/impl/redis/RedisPool.java:39-47 | every pool equals itself, and only a `RedisPool` can equal a pool |
| Redis.StringHash | src/main/java/me/braydon/database/impl/redis/RedisPool.java:51 | the incremental `String.hashCode` with `int` wrap-around agrees modulo 2^32 with the documented s[0]*31^(n-1) + ... + s[n-1] |
| Redis.PolynomialSnoc | src/main/java/me/braydon/database/impl/redis/RedisPool.java:51 | appending a character multiplies the documented string hash by 31 and adds the character |
| Redis.RedisPool.HashCode | src/main/java/me/braydon/database/impl/redis/RedisPool.java:49-52 | `Objects.hash(name, type)` agrees modulo 2^32 with 31 * (31 * 1 + hash of the name) + hash of the type |
| Redis.EqualsIsKeyEquality | src/main/java/me/braydon/database/impl/redis/RedisPool.java:39-47 | two pools are equal exactly when name and type agree, whatever their host, port, auth or handles; no pool equals null |
| Redis.EqualPoolsHashEqually | src/main/java/me/braydon/database/impl/redis/RedisPool.java:49-52 | equal pools have equal `Objects.hash(name, type)`, with Java `int` wrap-around |
| Redis.OfType | src/main/java/me/braydon/database/impl/redis/RedisDatabase.java:154-159 | the filtered set holds exactly the registered pools of the requested type |
| Redis.RedisDatabase.constructor | src/main/java/me/braydon/database/impl/redis/RedisDatabase.java:28-30 | a new registry has no properties, no pools and no messaging service, and no two pools share a key |
| Redis.RedisDatabase.WithPool | src/main/java/me/braydon/database/impl/redis/RedisDatabase.java:109-114 | the key is registered afterwards; an existing key leaves the set unchanged; otherwise exactly one fresh, unbound pool with the given fields is added; keys stay unique |
| Redis.RedisDatabase.Connect | src/main/java/me/braydon/database/impl/redis/RedisDatabase.java:39-57 | the properties are stored even when no pools exist, and then the call fails with "Found no pools to setup"; otherwise every pool is bound to this registry and to a fresh open provider for its host and port, a messaging service is created, and the previous providers are left open |
| Redis.RedisDatabase.ConnectWithUri | src/main/java/me/braydon/database/impl/redis/RedisDatabase.java:67-70 | always UnsupportedOperationException |
| Redis.RedisDatabase.GetPoolByName | src/main/java/me/braydon/database/impl/redis/RedisDatabase.java:122-131 | a registered pool with that name, or null exactly when there is none |
| Redis.RedisDatabase.GetPool | src/main/java/me/braydon/database/impl/redis/RedisDatabase.java:151-171 | the result is one of the pools allowed by `Selected`: a pool of the type; else SLAVE falls back to MASTER (NullPointerException without properties); else MASTER fails with "Cannot find an available pool for the type MASTER" |
| Redis.RedisDatabase.GetPoolWritable | src/main/java/me/braydon/database/impl/redis/RedisDatabase.java:139-143 | a writable request selects as for MASTER, a read-only one as for SLAVE |
| Redis.RedisDatabase.Cleanup | src/main/java/me/braydon/database/impl/redis/RedisDatabase.java:176-189 | properties, messaging service and pool set are cleared; every bound provider ends closed, and `close()` is called once on each provider that was open and never on one already closed |
| Redis.SelectionHonoursType | src/main/java/me/braydon/database/impl/redis/RedisDatabase.java:151-171 | when pools of the type exist, the selection is a registered pool of that type |
| Redis.Selected | src/main/java/me/braydon/database/impl/redis/RedisDatabase.java:151-171 | a selected pool is always a registered one, of the requested type or a MASTER pool for a SLAVE request; a failure is a NullPointerException or an IllegalStateException |
| Redis.SlaveFallsBackToMaster | src/main/java/me/braydon/database/impl/redis/RedisDatabase.java:160-166 | with no SLAVE pool, a SLAVE request needs properties and then behaves as a MASTER request, yielding a MASTER pool whenever any pool exists |
| Redis.MasterHasNoFallback | src/main/java/me/braydon/database/impl/redis/RedisDatabase.java:160-167 | a MASTER request fails exactly when no MASTER pool exists, with the MASTER message, and never yields a SLAVE pool |
| Redis.SingleMatchIsDeterministic | src/main/java/me/braydon/database/impl/redis/RedisDatabase.java:169 | with one pool of the type, the random pick always returns it |
| RedisRepositories.RedisRepository.constructor | src/main/java/me/braydon/database/impl/redis/RedisRepository.java:9-11 | the repository holds the given registry |
| RedisRepositories.RedisRepository.GetPoolWritable | src/main/java/me/braydon/database/impl/redis/RedisRepository.java:18-20 | the flag is ignored: the selection is always a MASTER one, it is never a SLAVE pool, and it fails exactly when no MASTER pool is registered |
| RedisRepositories.RedisRepository.GetPool | src/main/java/me/braydon/database/impl/redis/RedisRepository.java:28-30 | exactly the registry's selection for the type, fallback included |
| MySql.DefaultDataSourceProperties | src/main/java/me/braydon/database/impl/mysql/MySQLDatabase.java:28-34 | exactly the keys cachePrepStmts, prepStmtCacheSize and prepStmtCacheSqlLimit, with values true, 250 and 2048 |
| MySql.JdbcUrl | src/main/java/me/braydon/database/impl/mysql/MySQLDatabase.java:45 | the URL starts with "jdbc:mysql://" and ends with "/" and the database name |
| MySql.JdbcUrlRoundTrip | src/main/java/me/braydon/database/impl/mysql/MySQLDatabase.java:45 | the URL `jdbc:mysql://host:port/database` determines host, port and database name when the host has no ':' |
| MySql.MySQLDatabase.constructor | src/main/java/me/braydon/database/impl/mysql/MySQLDatabase.java:28-34 | the default constructor creates its own modifiable map holding the three statement-cache properties and is not connected |
| MySql.MySQLDatabase.WithDataSourceProperties | src/main/java/me/braydon/database/impl/mysql/MySQLDatabase.java:20-26 | the required-args constructor keeps the caller's map itself, not a copy, and is not connected |
| MySql.MySQLDatabase.Connect | src/main/java/me/braydon/database/impl/mysql/MySQLDatabase.java:43-47 | as `ConnectWithUri`, with the URL built from host, port and database |
| MySql.MySQLDatabase.ConnectWithUri | src/main/java/me/braydon/database/impl/mysql/MySQLDatabase.java:57-79 | an existing data source gives IllegalStateException "Already connected" and changes nothing; otherwise the properties are stored and a fresh open data source gets URL, credentials, the MySQL driver and a copy of every entry the shared map holds at that moment |
| MySql.MySQLDatabase.Cleanup | src/main/java/me/braydon/database/impl/mysql/MySQLDatabase.java:98-107 | on an unmodifiable map `clear()` throws UnsupportedOperationException first and nothing else changes: the properties stay and the data source stays open and held; otherwise the shared map is emptied, the properties and data source are dropped, and `close()` is called once on an open data source and never on a closed one |
| MySql.CleanupTwice | src/main/java/me/braydon/database/impl/mysql/MySQLDatabase.java:98-107 | a second cleanup closes nothing more and leaves the same state; on an unmodifiable map both fail and nothing changes |
| MySql.ReconnectAfterCleanup | src/main/java/me/braydon/database/impl/mysql/MySQLDatabase.java:57-79 | after a successful cleanup a connect succeeds again, but the new data source carries no extra properties; after a failed one a connect is refused when a data source is still held |
| MySql.CleanupEmptiesCallerMap | src/main/java/me/braydon/database/impl/mysql/MySQLDatabase.java:98-101 | the database shares the caller's map, so `cleanup` empties the caller's map too |
| MySql.CallerChangeReachesConnect | src/main/java/me/braydon/database/impl/mysql/MySQLDatabase.java:70-71 | an entry the caller puts into its map after construction reaches the next data source's configuration |
| MySqlRepositories.Placeholders | src/main/java/me/braydon/database/impl/MySQLRepository.java:102-107 | the count of `?` is at most the query's length, and zero exactly when the query has no `?` |
| MySqlRepositories.InsertRun | src/main/java/me/braydon/database/impl/MySQLRepository.java:100-124 | the insert makes no JDBC call exactly when it throws the column-count exception |
| MySqlRepositories.QueryRun | src/main/java/me/braydon/database/impl/MySQLRepository.java:199-229 | the query makes no JDBC call exactly when it throws the column-count exception, and runs at most one callback |
| MySqlRepositories.ExecuteRun | src/main/java/me/braydon/database/impl/MySQLRepository.java:296-307 | the Runnable variant never throws, always prepares first, closes a prepared statement last, and runs at most one callback |
| MySqlRepositories.CountPlaceholders | src/main/java/me/braydon/database/impl/MySQLRepository.java:102-107 | the loop counts every `?` character of the query |
| MySqlRepositories.PlaceholdersOfConcat | src/main/java/me/braydon/database/impl/MySQLRepository.java:102-107 | the count is additive over concatenation, so a `?` inside a quoted literal counts like any other |
| MySqlRepositories.BoundValues | src/main/java/me/braydon/database/impl/MySQLRepository.java:113-114 | one bound value per column, in array order, each the column's `toString()` or null |
| MySqlRepositories.BindColumns | src/main/java/me/braydon/database/impl/MySQLRepository.java:112-114 | column i is bound to parameter i + 1, in order, up to and including the `setString` that throws, whose error is returned |
| MySqlRepositories.BindGivenColumns | src/main/java/me/braydon/database/impl/MySQLRepository.java:212-216 | the columns are bound only when given |
| MySqlRepositories.QueryStatement | src/main/java/me/braydon/database/impl/MySQLRepository.java:211-228 | after the check, the statement calls and callback events are those of `QueryRun` |
| MySqlRepositories.InsertRejectsMismatch | src/main/java/me/braydon/database/impl/MySQLRepository.java:102-109 | the insert throws IllegalArgumentException exactly when the column count differs from the `?` count, before any JDBC call or callback |
| MySqlRepositories.InsertReturnCode | src/main/java/me/braydon/database/impl/MySQLRepository.java:110-123 | the insert returns the update count when the update ran and 0 when an SQLException came first; a failure reading the generated keys keeps the count |
| MySqlRepositories.InsertBindsInOrder | src/main/java/me/braydon/database/impl/MySQLRepository.java:111-114 | the statement is prepared with generated keys, value i goes to parameter i + 1 up to the throwing one, and the statement is closed last |
| MySqlRepositories.InsertCallbacks | src/main/java/me/braydon/database/impl/MySQLRepository.java:115-121 | `onComplete` runs exactly when given and the update and key retrieval succeed; `onException` receives an error exactly when given and a JDBC call threw; at most one runs |
| MySqlRepositories.QueryColumnsCheck | src/main/java/me/braydon/database/impl/MySQLRepository.java:201-216 | without columns nothing is checked or bound; with columns the query is rejected exactly on a count mismatch, before any call |
| MySqlRepositories.QueryCallbacks | src/main/java/me/braydon/database/impl/MySQLRepository.java:217-228 | `onComplete` receives the result set, and the result set is closed, exactly when prepare, binding and query succeed; `onException` gets an error exactly when given and a call threw |
| MySqlRepositories.ExecuteCallbacks | src/main/java/me/braydon/database/impl/MySQLRepository.java:296-307 | the Runnable runs only after `execute()` returned; `onException` gets an error exactly when given and a call threw |
| MySqlRepositories.MySQLRepository.constructor | src/main/java/me/braydon/database/impl/MySQLRepository.java:16-18 | the repository holds the given database |
| MySqlRepositories.MySQLRepository.ExecuteInsertOn | src/main/java/me/braydon/database/impl/MySQLRepository.java:100-124 | result, JDBC calls and callback events are exactly those of `InsertRun`; the connection stays open |
| MySqlRepositories.MySQLRepository.ExecuteQueryOn | src/main/java/me/braydon/database/impl/MySQLRepository.java:199-229 | result, JDBC calls and callback events are exactly those of `QueryRun`; the connection stays open |
| MySqlRepositories.MySQLRepository.ExecuteOn | src/main/java/me/braydon/database/impl/MySQLRepository.java:296-307 | result, JDBC calls and callback events are exactly those of `ExecuteRun` |
| MySqlRepositories.MySQLRepository.ExecuteInsert | src/main/java/me/braydon/database/impl/MySQLRepository.java:52-62 | no data source gives NullPointerException; a failed `getConnection` returns -1 and reports to `onException`; otherwise the connection-level insert runs and the connection is closed |
| MySqlRepositories.MySQLRepository.ExecuteQuery | src/main/java/me/braydon/database/impl/MySQLRepository.java:166-175 | the same around the connection-level query; a failed `getConnection` only reports |
| MySqlRepositories.MySQLRepository.Execute | src/main/java/me/braydon/database/impl/MySQLRepository.java:257-265 | the connection-level call gets no `onException`, so only a failed `getConnection` is reported; the connection is closed afterwards |

## Left out

- `RedisDatabase.MessagingService` (subscriptions, `addMessenger`, message dispatch on the executor, `onMessage`) is left out. It is threads and network I/O. Only its creation at connect time is modelled.
- The static `LOCK` blocks of both databases and all concurrency are left out. Each method is modelled as one atomic step.
- `onConnect` callbacks, logging, timing and `printStackTrace` are left out. They are side effects with no result.
- `getDummyRepository` of both databases is left out. It is a plain constructor call; the repository constructors are modelled.
- Redis.RedisDatabase.GetPool: does not state that the pick is uniformly random. Any pool of the type is allowed.
- `HashSet` iteration order is left out. Every loop over the pool set may visit the pools in any order.
- The connector clients are stand-ins:
  - Jedis, `JedisPool` and `HikariDataSource` are opaque handles.
  - `JedisPool.getResource` always succeeds on an open pool.
  - Building a `HikariDataSource` never fails.
  - `getConnection()` is a parameter (`acquired`) of the connection-opening helpers, not derived from the data source's state.
- The JDBC driver is a `Script` that fixes which calls throw. At most one `setString` index fails.
- MySqlRepositories.MySQLRepository.ExecuteInsert: an exception thrown by `close()` of a statement, result set or connection is not modelled. The same holds for ExecuteQuery, Execute and the connection-level helpers, and for runtime exceptions thrown by the callbacks themselves.
- The `ResultSet` handed to `onComplete` is left out. The model records only that the callback ran.
- The overloads that only forward with `null` callbacks are modelled through their full variants with `hasOnComplete`/`hasOnException` flags. This covers `MySQLRepository.java` 27-41, 72-88, 132-156, 185-188, 236-248 and 273-286. It also covers `withPool` without auth (`RedisDatabase.java` 94-98), which is `WithPool` with `None`.
- The `return this` chaining of `withPool` is left out.
- Null arguments of parameters marked with Lombok's `NonNull` are left out, since those are generated null checks. The nullable parameters that are modelled are `auth`, the `columns` of a query and the callbacks.
- Other nulls the source accepts are left out, because the model's types exclude them:
  - a null table name, column name or primary-key element, which Java renders as "`null`" (`Table.java` 35, 39, 61);
  - a null element of a column array, which passes the auto-increment count and then throws NullPointerException (`Table.java` 39, `MySQLRepository.java` 114 and 215);
  - a null column array of a table, which throws NullPointerException (`Table.java` 28);
  - `getPool((String) null)`, which returns null (`RedisDatabase.java` 122-131);
  - a null pool type;
  - a null data-source property map, with which `connect` stores the properties and then throws NullPointerException (`MySQLDatabase.java` 62, 70).
- `Column<T>` values are modelled only for the three subclasses (Integer, String, Long).
- The older copy `impl/MySQLDatabase.java` is not part of this model, except as noted above. The same goes for `DoubleColumn` and `BooleanColumn`, MongoDB, the interfaces and the example code.
- Redis.StringHash: hashes Dafny characters, which equal Java's UTF-16 code units only inside the Basic Multilingual Plane.
- Redis.RedisPool.HashCode: the identity hash of the enum constants is a parameter.
- Redis.RedisPool.GetResource: on the NullPointerException path the lease already taken (and sent AUTH) is dropped without being returned to the provider; the model does not track leases held by the provider.
- MySql.JdbcUrlRoundTrip: requires a host without ':'. An IPv6 literal host makes the URL ambiguous.
- The `debugging` flag is left out. It only controls logging.
- The reading of `RedisProperties` in the SLAVE fallback is modelled only as the NullPointerException when there are none.
- A table with no columns renders `CREATE TABLE `name`);`. This is modelled as written.
