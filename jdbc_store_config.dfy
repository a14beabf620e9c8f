/**
 * The configuration of the JDBC cache stores that manage their own locking
 * (AbstractNonDelegatingJdbcCacheStoreConfig.java).
 *
 * The configuration owns a TableManipulation object that its setters update
 * in place, each after the parent configuration's immutability guard for the
 * element "tableManipulation". The guard is modelled by the set of element
 * names the parent configuration currently refuses to change; the DatabaseType
 * enum by the one set of its constant names, with `toString()` giving the name.
 */
module JdbcStoreConfig {
  import opened Common
  import opened JavaStrings

  /** Java `int` and `long`. */
  newtype int32 = x: int | -0x8000_0000 <= x < 0x8000_0000
  newtype int64 = x: int | -0x8000_0000_0000_0000 <= x < 0x8000_0000_0000_0000

  const DefaultConcurrencyLevel: int32 := 2048
  const DefaultLockAcquisitionTimeout: int32 := 60000

  /** The element name every table setter hands to the immutability guard. */
  const TableElement: string := "tableManipulation"

  /** How a setter ends: normally, with ConfigurationException, or with IllegalArgumentException. */
  datatype Status = Accepted | ConfigurationError(element: string) | IllegalArgument(name: string)

  /** A constant of the DatabaseType enum, known by its name. */
  datatype DatabaseType = DatabaseType(name: string)

  /**
   * The names of the DatabaseType constants. The enum itself is not part of
   * this model, so which names it declares is left open; every configuration
   * sees the same ones.
   */
  const DatabaseTypeNames: set<string>

  /**
   * `DatabaseType.valueOf(name)`: the constant of exactly that name among the
   * enum's constants, or null for the IllegalArgumentException it throws otherwise.
   */
  function ValueOf(name: string): (r: Option<DatabaseType>)
    ensures r.Some? <==> name in DatabaseTypeNames
    ensures r.Some? ==> r.value.name == name
  {
    if name in DatabaseTypeNames then Some(DatabaseType(name)) else None
  }

  /** The dialect `DatabaseType.valueOf(dbType.toUpperCase().trim())` selects. */
  function ResolveDialect(dbType: string): (r: Option<DatabaseType>)
    ensures r.Some? <==> Trim(ToUpper(dbType)) in DatabaseTypeNames
  {
    ValueOf(Trim(ToUpper(dbType)))
  }

  /** `databaseType == null ? "" : databaseType.toString()` */
  function DatabaseTypeText(databaseType: Option<DatabaseType>): (r: string)
    ensures databaseType.Some? ==> r == databaseType.value.name
  {
    match databaseType
    case None => ""
    case Some(d) => d.name
  }

  /** The dialect chosen for a name depends only on the name trimmed and upper-cased. */
  lemma DialectDependsOnlyOnNormalForm(s: string, t: string)
    requires ToUpper(Trim(s)) == ToUpper(Trim(t))
    ensures ResolveDialect(s) == ResolveDialect(t)
  {
    UpperTrimCommute(s);
    UpperTrimCommute(t);
  }

  /** A dialect name that resolves reads back as the name trimmed and upper-cased. */
  lemma ResolvedDialectReadsBack(s: string)
    requires ResolveDialect(s).Some?
    ensures DatabaseTypeText(ResolveDialect(s)) == ToUpper(Trim(s))
  {
    UpperTrimCommute(s);
  }

  /** The values held by a TableManipulation object. */
  datatype TableRecord = TableRecord(
    cacheName: string,
    idColumnName: string,
    idColumnType: string,
    dataColumnName: string,
    dataColumnType: string,
    timestampColumnName: string,
    timestampColumnType: string,
    dropTableOnExit: bool,
    createTableOnStart: bool,
    fetchSize: int32,
    batchSize: int32,
    databaseType: Option<DatabaseType>)

  /** The table description, a mutable object that configurations share by reference. */
  class TableManipulation {
    var cacheName: string
    var idColumnName: string
    var idColumnType: string
    var dataColumnName: string
    var dataColumnType: string
    var timestampColumnName: string
    var timestampColumnType: string
    var dropTableOnExit: bool
    var createTableOnStart: bool
    var fetchSize: int32
    var batchSize: int32
    var databaseType: Option<DatabaseType>

    function Record(): (r: TableRecord)
      reads this
    {
      TableRecord(cacheName, idColumnName, idColumnType, dataColumnName, dataColumnType,
        timestampColumnName, timestampColumnType, dropTableOnExit, createTableOnStart,
        fetchSize, batchSize, databaseType)
    }

    /** A table description holding the given values. */
    constructor (initial: TableRecord)
      ensures Record() == initial
    {
      cacheName := initial.cacheName;
      idColumnName := initial.idColumnName;
      idColumnType := initial.idColumnType;
      dataColumnName := initial.dataColumnName;
      dataColumnType := initial.dataColumnType;
      timestampColumnName := initial.timestampColumnName;
      timestampColumnType := initial.timestampColumnType;
      dropTableOnExit := initial.dropTableOnExit;
      createTableOnStart := initial.createTableOnStart;
      fetchSize := initial.fetchSize;
      batchSize := initial.batchSize;
      databaseType := initial.databaseType;
    }

    /** clone(): a new object holding the same values. */
    method Clone() returns (copy: TableManipulation)
      ensures fresh(copy) && copy.Record() == Record()
    {
      copy := new TableManipulation(Record());
    }
  }

  class AbstractNonDelegatingJdbcCacheStoreConfig {
    /** The elements the parent configuration's immutability guard currently refuses to change. */
    var immutableElements: set<string>
    var lockConcurrencyLevel: int32
    var lockAcquistionTimeout: int64
    var tableManipulation: TableManipulation
    var manageConnectionFactory: bool

    /**
     * A fresh configuration: the default lock settings, a connection factory
     * it manages itself, and a new table description holding the values a new
     * TableManipulation starts with.
     */
    constructor (initialTable: TableRecord)
      ensures immutableElements == {}
      ensures lockConcurrencyLevel == 2048 && lockAcquistionTimeout == 60000
      ensures IsManageConnectionFactory()
      ensures fresh(tableManipulation) && GetTableManipulation().Record() == initialTable
    {
      immutableElements := {};
      lockConcurrencyLevel := DefaultConcurrencyLevel;
      lockAcquistionTimeout := DefaultLockAcquisitionTimeout as int64;
      tableManipulation := new TableManipulation(initialTable);
      manageConnectionFactory := true;
    }

    /** `super.clone()`: a field-by-field copy that shares the table description. */
    constructor ShallowCopy(source: AbstractNonDelegatingJdbcCacheStoreConfig)
      ensures immutableElements == source.immutableElements
      ensures lockConcurrencyLevel == source.lockConcurrencyLevel
      ensures lockAcquistionTimeout == source.lockAcquistionTimeout
      ensures manageConnectionFactory == source.manageConnectionFactory
      ensures tableManipulation == source.tableManipulation
    {
      immutableElements := source.immutableElements;
      lockConcurrencyLevel := source.lockConcurrencyLevel;
      lockAcquistionTimeout := source.lockAcquistionTimeout;
      tableManipulation := source.tableManipulation;
      manageConnectionFactory := source.manageConnectionFactory;
    }

    /** `testImmutability(element)`: refuses, with ConfigurationException, an element that may no longer change. */
    function TestImmutability(element: string): (r: Status)
      reads this
      ensures r.Accepted? <==> element !in immutableElements
      ensures !r.Accepted? ==> r == ConfigurationError(element)
    {
      if element in immutableElements then ConfigurationError(element) else Accepted
    }

    method SetCacheName(cacheName: string) returns (status: Status)
      modifies tableManipulation
      ensures status.Accepted? <==> TableElement !in immutableElements
      ensures !status.Accepted? ==> status == ConfigurationError(TableElement)
      ensures tableManipulation.Record() ==
        if status.Accepted? then old(tableManipulation.Record()).(cacheName := cacheName)
        else old(tableManipulation.Record())
    {
      status := TestImmutability(TableElement);
      if status.Accepted? {
        tableManipulation.cacheName := cacheName;
      }
    }

    method SetIdColumnName(idColumnName: string) returns (status: Status)
      modifies tableManipulation
      ensures status.Accepted? <==> TableElement !in immutableElements
      ensures !status.Accepted? ==> status == ConfigurationError(TableElement)
      ensures tableManipulation.Record() ==
        if status.Accepted? then old(tableManipulation.Record()).(idColumnName := idColumnName)
        else old(tableManipulation.Record())
    {
      status := TestImmutability(TableElement);
      if status.Accepted? {
        tableManipulation.idColumnName := idColumnName;
      }
    }

    method SetDataColumnName(dataColumnName: string) returns (status: Status)
      modifies tableManipulation
      ensures status.Accepted? <==> TableElement !in immutableElements
      ensures !status.Accepted? ==> status == ConfigurationError(TableElement)
      ensures tableManipulation.Record() ==
        if status.Accepted? then old(tableManipulation.Record()).(dataColumnName := dataColumnName)
        else old(tableManipulation.Record())
    {
      status := TestImmutability(TableElement);
      if status.Accepted? {
        tableManipulation.dataColumnName := dataColumnName;
      }
    }

    method SetTimestampColumnName(timestampColumnName: string) returns (status: Status)
      modifies tableManipulation
      ensures status.Accepted? <==> TableElement !in immutableElements
      ensures !status.Accepted? ==> status == ConfigurationError(TableElement)
      ensures tableManipulation.Record() ==
        if status.Accepted? then old(tableManipulation.Record()).(timestampColumnName := timestampColumnName)
        else old(tableManipulation.Record())
    {
      status := TestImmutability(TableElement);
      if status.Accepted? {
        tableManipulation.timestampColumnName := timestampColumnName;
      }
    }

    method SetTimestampColumnType(timestampColumnType: string) returns (status: Status)
      modifies tableManipulation
      ensures status.Accepted? <==> TableElement !in immutableElements
      ensures !status.Accepted? ==> status == ConfigurationError(TableElement)
      ensures tableManipulation.Record() ==
        if status.Accepted? then old(tableManipulation.Record()).(timestampColumnType := timestampColumnType)
        else old(tableManipulation.Record())
    {
      status := TestImmutability(TableElement);
      if status.Accepted? {
        tableManipulation.timestampColumnType := timestampColumnType;
      }
    }

    /** getTableManipulation(): the table description itself, not a copy. */
    function GetTableManipulation(): (r: TableManipulation)
      reads this
      ensures r == tableManipulation
    {
      tableManipulation
    }

    method SetIdColumnType(idColumnType: string) returns (status: Status)
      modifies tableManipulation
      ensures status.Accepted? <==> TableElement !in immutableElements
      ensures !status.Accepted? ==> status == ConfigurationError(TableElement)
      ensures tableManipulation.Record() ==
        if status.Accepted? then old(tableManipulation.Record()).(idColumnType := idColumnType)
        else old(tableManipulation.Record())
    {
      status := TestImmutability(TableElement);
      if status.Accepted? {
        tableManipulation.idColumnType := idColumnType;
      }
    }

    method SetDataColumnType(dataColumnType: string) returns (status: Status)
      modifies tableManipulation
      ensures status.Accepted? <==> TableElement !in immutableElements
      ensures !status.Accepted? ==> status == ConfigurationError(TableElement)
      ensures tableManipulation.Record() ==
        if status.Accepted? then old(tableManipulation.Record()).(dataColumnType := dataColumnType)
        else old(tableManipulation.Record())
    {
      status := TestImmutability(TableElement);
      if status.Accepted? {
        tableManipulation.dataColumnType := dataColumnType;
      }
    }

    method SetDropTableOnExit(dropTableOnExit: bool) returns (status: Status)
      modifies tableManipulation
      ensures status.Accepted? <==> TableElement !in immutableElements
      ensures !status.Accepted? ==> status == ConfigurationError(TableElement)
      ensures tableManipulation.Record() ==
        if status.Accepted? then old(tableManipulation.Record()).(dropTableOnExit := dropTableOnExit)
        else old(tableManipulation.Record())
    {
      status := TestImmutability(TableElement);
      if status.Accepted? {
        tableManipulation.dropTableOnExit := dropTableOnExit;
      }
    }

    method SetCreateTableOnStart(createTableOnStart: bool) returns (status: Status)
      modifies tableManipulation
      ensures status.Accepted? <==> TableElement !in immutableElements
      ensures !status.Accepted? ==> status == ConfigurationError(TableElement)
      ensures tableManipulation.Record() ==
        if status.Accepted? then old(tableManipulation.Record()).(createTableOnStart := createTableOnStart)
        else old(tableManipulation.Record())
    {
      status := TestImmutability(TableElement);
      if status.Accepted? {
        tableManipulation.createTableOnStart := createTableOnStart;
      }
    }

    /** isManageConnectionFactory() */
    function IsManageConnectionFactory(): (r: bool)
      reads this
      ensures r == manageConnectionFactory
    {
      manageConnectionFactory
    }

    /** setTableManipulation(t): replaces the whole table description by t itself. */
    method SetTableManipulation(t: TableManipulation) returns (status: Status)
      modifies this`tableManipulation
      ensures status.Accepted? <==> TableElement !in immutableElements
      ensures !status.Accepted? ==> status == ConfigurationError(TableElement)
      ensures GetTableManipulation() == if status.Accepted? then t else old(tableManipulation)
    {
      status := TestImmutability(TableElement);
      if status.Accepted? {
        tableManipulation := t;
      }
    }

    method SetFetchSize(fetchSize: int32) returns (status: Status)
      modifies tableManipulation
      ensures status.Accepted? <==> TableElement !in immutableElements
      ensures !status.Accepted? ==> status == ConfigurationError(TableElement)
      ensures tableManipulation.Record() ==
        if status.Accepted? then old(tableManipulation.Record()).(fetchSize := fetchSize)
        else old(tableManipulation.Record())
      ensures status.Accepted? ==> GetFetchSize() == fetchSize
    {
      status := TestImmutability(TableElement);
      if status.Accepted? {
        tableManipulation.fetchSize := fetchSize;
      }
    }

    method SetBatchSize(batchSize: int32) returns (status: Status)
      modifies tableManipulation
      ensures status.Accepted? <==> TableElement !in immutableElements
      ensures !status.Accepted? ==> status == ConfigurationError(TableElement)
      ensures tableManipulation.Record() ==
        if status.Accepted? then old(tableManipulation.Record()).(batchSize := batchSize)
        else old(tableManipulation.Record())
      ensures status.Accepted? ==> GetBatchSize() == batchSize
    {
      status := TestImmutability(TableElement);
      if status.Accepted? {
        tableManipulation.batchSize := batchSize;
      }
    }

    /** getFetchSize(): read through to the table description. */
    function GetFetchSize(): (r: int32)
      reads this, tableManipulation
      ensures r == GetTableManipulation().Record().fetchSize
    {
      tableManipulation.fetchSize
    }

    /** getBatchSize(): read through to the table description. */
    function GetBatchSize(): (r: int32)
      reads this, tableManipulation
      ensures r == GetTableManipulation().Record().batchSize
    {
      tableManipulation.batchSize
    }

    /** getDatabaseType(): the dialect's name, or "" when none is set. */
    function GetDatabaseType(): (r: string)
      reads this, tableManipulation
      ensures tableManipulation.databaseType.None? ==> r == ""
      ensures tableManipulation.databaseType.Some? ==> r == tableManipulation.databaseType.value.name
    {
      DatabaseTypeText(tableManipulation.databaseType)
    }

    /**
     * setDatabaseType(dbType): null changes nothing; otherwise the dialect named
     * by dbType upper-cased and trimmed, or IllegalArgumentException and no
     * change when there is none. The immutability guard is not consulted.
     */
    method SetDatabaseType(dbType: Option<string>) returns (status: Status)
      modifies tableManipulation
      ensures !status.ConfigurationError?
      ensures dbType.None? ==> status == Accepted
      ensures dbType.Some? ==> (status.Accepted? <==> ResolveDialect(dbType.value).Some?)
      ensures dbType.Some? && !status.Accepted? ==> status == IllegalArgument(Trim(ToUpper(dbType.value)))
      ensures tableManipulation.Record() ==
        if dbType.Some? && status.Accepted?
        then old(tableManipulation.Record()).(databaseType := ResolveDialect(dbType.value))
        else old(tableManipulation.Record())
      ensures dbType.Some? && status.Accepted? ==> GetDatabaseType() == ToUpper(Trim(dbType.value))
    {
      status := Accepted;
      if dbType.Some? {
        var name := Trim(ToUpper(dbType.value));
        var dialect := ValueOf(name);
        if dialect.None? {
          status := IllegalArgument(name);
          return;
        }
        tableManipulation.databaseType := dialect;
        ResolvedDialectReadsBack(dbType.value);
      }
    }

    /** clone(): a copy of the configuration with its own copy of the table description. */
    method Clone() returns (result: AbstractNonDelegatingJdbcCacheStoreConfig)
      ensures fresh(result) && fresh(result.tableManipulation)
      ensures result.immutableElements == immutableElements
      ensures result.lockConcurrencyLevel == lockConcurrencyLevel
      ensures result.lockAcquistionTimeout == lockAcquistionTimeout
      ensures result.manageConnectionFactory == manageConnectionFactory
      ensures result.tableManipulation.Record() == tableManipulation.Record()
    {
      result := new AbstractNonDelegatingJdbcCacheStoreConfig.ShallowCopy(this);
      var copy := tableManipulation.Clone();
      result.tableManipulation := copy;
    }
  }

  /**
   * The copy a clone makes is deep: a table setter applied to the clone takes
   * effect on the clone and leaves the original's table description as it was.
   */
  method CloneIsDeep(original: AbstractNonDelegatingJdbcCacheStoreConfig, fetchSize: int32)
    returns (copy: AbstractNonDelegatingJdbcCacheStoreConfig, status: Status)
    ensures fresh(copy) && copy.tableManipulation != original.tableManipulation
    ensures status.Accepted? <==> TableElement !in original.immutableElements
    ensures status.Accepted? ==> copy.GetFetchSize() == fetchSize
    ensures original.tableManipulation.Record() == old(original.tableManipulation.Record())
  {
    copy := original.Clone();
    status := copy.SetFetchSize(fetchSize);
  }
}
