/**
 The data-source registry that the validating thread reads and whose blacklist it
 mutates. The registry itself (RandomDataSourceSelector) is not part of this model:
 it is reduced to the two pieces of state the thread touches, the name-to-DataSource
 map and the blacklist, with the two blacklist mutators.
 */
module Registry {

  /** A value that may be absent; `None` stands for Java's null. */
  datatype Option<+T> = None | Some(value: T)

  /** A registered DataSource object, as a value: two values stand for the same object
      exactly when they are equal. `id` tells objects apart, and `druid` says whether the
      object is an instance of DruidDataSource (the only kind the thread knows how to probe). */
  datatype DataSource = DataSource(id: nat, druid: bool)

  /** The handle `dataSourceMap.get(name)` yields: the registered DataSource, or null
      for a name that is no longer registered. */
  function Lookup(sources: map<string, DataSource>, name: string): (h: Option<DataSource>)
    ensures h.None? <==> name !in sources
    ensures h.Some? ==> name in sources && sources[name] == h.value
  {
    if name in sources then Some(sources[name]) else None
  }

  class DataSourceSelector {
    var dataSourceMap: map<string, DataSource>
    var blacklist: set<DataSource>

    constructor (dataSources: map<string, DataSource>)
      ensures dataSourceMap == dataSources && blacklist == {}
    {
      dataSourceMap := dataSources;
      blacklist := {};
    }

    /** Puts a DataSource on the blacklist; idempotent, and a null handle changes nothing. */
    method AddBlacklist(h: Option<DataSource>)
      modifies this`blacklist
      ensures h.Some? ==> blacklist == old(blacklist) + {h.value}
      ensures h.None? ==> blacklist == old(blacklist)
    {
      if h.Some? {
        blacklist := blacklist + {h.value};
      }
    }

    /** Takes a DataSource off the blacklist; idempotent, and a null handle changes nothing. */
    method RemoveBlacklist(h: Option<DataSource>)
      modifies this`blacklist
      ensures h.Some? ==> blacklist == old(blacklist) - {h.value}
      ensures h.None? ==> blacklist == old(blacklist)
    {
      if h.Some? {
        blacklist := blacklist - {h.value};
      }
    }
  }
}
