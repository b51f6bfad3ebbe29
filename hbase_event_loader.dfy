/** `HbaseEventsLoader`: fetches stored events by id from the column store,
    one batch lookup with up to three attempts, and decodes each returned
    cell. The store itself (connection pool, tables) is an oracle that answers
    each lookup given every lookup made before it. */
module HbaseEventLoader {
  import opened Common
  import opened Strings
  import opened SocEventParser

  type Bytes = seq<bv8>

  /** `table.rows([id.encode() for id in ids], columns=[b'n:e'])` on one table. */
  datatype Lookup = Lookup(table: string, rowKeys: seq<string>, columns: seq<string>)

  /** A returned row: its key and the cells of the requested columns. */
  datatype Row = Row(key: string, cells: map<string, Bytes>)

  /** The failures the lookup is retried on. */
  datatype TransientError = NoConnectionsAvailable | ThriftError | SocketTimeout

  /** The store's answer to one lookup: rows, a transient failure, or any
      other failure (which nothing in the loader catches). */
  datatype StoreReply = Rows(rows: seq<Row>) | Transient(error: TransientError) | Broken

  /** The store's behaviour: its answer to a lookup after the given history. */
  type StoreOracle = (seq<Lookup>, Lookup) -> StoreReply

  /** The outcome of `_get_events_from_hbase`: the `n:e` cells, the transient
      error re-raised after the last attempt, or another exception. */
  datatype Fetch = Fetched(cells: seq<Bytes>) | GaveUp(error: TransientError) | Failed

  /** A value, or an exception that escapes to the caller. */
  datatype Outcome<T> = Done(value: T) | Raised

  /** A stored raw event; only its text is used. */
  datatype RawEvent = RawEvent(raw: string)

  const EventColumn: string := "n:e"
  const LookupTries: nat := 3

  /** `_full_table_name`: `f'{namespace}:{table_name}'`. */
  function FullTableName(namespace: string, table: string): string
  {
    namespace + ":" + table
  }

  /** A colon-free namespace is the first `:`-piece of the full name, and the
      remaining pieces join back to the table name. */
  lemma FullTableNameSplits(namespace: string, table: string)
    requires ':' !in namespace
    ensures var pieces := Split(FullTableName(namespace, table), ':');
      && pieces[0] == namespace
      && Join(pieces[1..], ":") == table
  {
    SplitPrepend(namespace, ':', table);
    JoinSplit(table, ':');
    assert ([namespace] + Split(table, ':'))[1..] == Split(table, ':');
  }

  /** `[data[b'n:e'] for _, data in result]`; `None` is the `KeyError` of a
      row without the cell. */
  function ReadCells(rows: seq<Row>): (r: Option<seq<Bytes>>)
    ensures r.Some? <==> forall i :: 0 <= i < |rows| ==> EventColumn in rows[i].cells
    ensures r.Some? ==> |r.value| == |rows|
    ensures r.Some? ==> forall i :: 0 <= i < |rows| ==> r.value[i] == rows[i].cells[EventColumn]
  {
    if rows == [] then Some([])
    else
      match ReadCells(rows[..|rows| - 1])
      case None => None
      case Some(init) =>
        var last := rows[|rows| - 1];
        if EventColumn in last.cells then Some(init + [last.cells[EventColumn]]) else None
  }

  /** One lookup with at most `tries` attempts, retried only on a transient
      failure; the result and the history after it. */
  function FetchSpec(store: StoreOracle, log: seq<Lookup>, lookup: Lookup, tries: nat): (Fetch, seq<Lookup>)
    requires tries >= 1
    decreases tries
  {
    var log' := log + [lookup];
    match store(log, lookup)
    case Rows(rows) =>
      (match ReadCells(rows) case Some(cells) => Fetched(cells) case None => Failed, log')
    case Broken => (Failed, log')
    case Transient(e) =>
      if tries == 1 then (GaveUp(e), log') else FetchSpec(store, log', lookup, tries - 1)
  }

  /** `_get_events_from_hbase`: no lookup at all for an empty id list. */
  function GetEventsSpec(store: StoreOracle, log: seq<Lookup>, ids: seq<string>, table: string): (Fetch, seq<Lookup>)
  {
    if ids == [] then (Fetched([]), log)
    else FetchSpec(store, log, Lookup(table, ids, [EventColumn]), LookupTries)
  }

  /** The attempts of a retried lookup: between one and `tries` copies of the
      lookup, each but the last answered by a transient failure, and the last
      answer decides the result; the retries run out only after `tries`
      transient failures. */
  lemma {:induction false} FetchAttempts(store: StoreOracle, log: seq<Lookup>, lookup: Lookup, tries: nat)
    requires tries >= 1
    ensures var (f, log') := FetchSpec(store, log, lookup, tries);
      var n := |log'| - |log|;
      && 1 <= n <= tries
      && log' == log + Repeat(lookup, n)
      && (forall j :: 0 <= j < n - 1 ==> store(log + Repeat(lookup, j), lookup).Transient?)
      && (f.GaveUp? <==> n == tries && store(log + Repeat(lookup, n - 1), lookup).Transient?)
      && (f.Fetched? ==> store(log + Repeat(lookup, n - 1), lookup).Rows?)
    decreases tries
  {
    var log1 := log + [lookup];
    assert Repeat(lookup, 0) == [] && log + [] == log;
    assert Repeat(lookup, 1) == [lookup];
    if store(log, lookup).Transient? && tries > 1 {
      FetchAttempts(store, log1, lookup, tries - 1);
      var (f, log') := FetchSpec(store, log1, lookup, tries - 1);
      var m := |log'| - |log1|;
      assert log' == log1 + Repeat(lookup, m);
      forall j | 0 <= j <= m
        ensures log1 + Repeat(lookup, j) == log + Repeat(lookup, j + 1)
      {
        RepeatCons(lookup, j);
      }
    }
  }

  /** An empty id list makes no lookup; otherwise the batch lookup of the
      `n:e` column is made between one and three times. */
  lemma GetEventsLookups(store: StoreOracle, log: seq<Lookup>, ids: seq<string>, table: string)
    ensures ids == [] ==> GetEventsSpec(store, log, ids, table) == (Fetched([]), log)
    ensures ids != [] ==>
      var log' := GetEventsSpec(store, log, ids, table).1;
      && 1 <= |log'| - |log| <= LookupTries
      && log' == log + Repeat(Lookup(table, ids, [EventColumn]), |log'| - |log|)
  {
    if ids != [] {
      FetchAttempts(store, log, Lookup(table, ids, [EventColumn]), LookupTries);
    }
  }

  /** Decodes every cell in order; `None` as soon as one cannot be decoded. */
  function DecodeAll<T>(decode: Bytes -> Option<T>, cells: seq<Bytes>): (r: Option<seq<T>>)
    ensures r.Some? <==> forall i :: 0 <= i < |cells| ==> decode(cells[i]).Some?
    ensures r.Some? ==> |r.value| == |cells|
    ensures r.Some? ==> forall i :: 0 <= i < |cells| ==> r.value[i] == decode(cells[i]).value
  {
    if cells == [] then Some([])
    else
      match DecodeAll(decode, cells[..|cells| - 1])
      case None => None
      case Some(init) =>
        match decode(cells[|cells| - 1])
        case None => None
        case Some(x) => Some(init + [x])
  }

  /** The text of each raw event. */
  function RawTexts(events: seq<RawEvent>): (r: seq<string>)
    ensures |r| == |events|
    ensures forall i :: 0 <= i < |events| ==> r[i] == events[i].raw
  {
    seq(|events|, i requires 0 <= i < |events| => events[i].raw)
  }

  /** The column store's connection pool, as seen through the lookups it
      answers: `log` is every lookup made so far. */
  class HbasePool {
    const respond: StoreOracle
    var log: seq<Lookup>

    constructor (respond: StoreOracle)
      ensures this.respond == respond && log == []
    {
      this.respond := respond;
      log := [];
    }

    /** One `table.rows(...)` call on a pooled connection. */
    method Rows(lookup: Lookup) returns (reply: StoreReply)
      modifies this
      ensures log == old(log) + [lookup]
      ensures reply == respond(old(log), lookup)
    {
      reply := respond(log, lookup);
      log := log + [lookup];
    }
  }

  /** The loader: the pool, the namespace, the two table names and the two
      deserializers (`RawEvent().FromString` and `SocEvent().FromString`, whose
      `None` is a decode error). */
  class HbaseEventsLoader {
    const pool: HbasePool
    const namespace: string
    const rawTableName: string
    const normalizedTableName: string
    const decodeRaw: Bytes -> Option<RawEvent>
    const decodeNormalized: Bytes -> Option<ValidSocEvent>

    constructor (pool: HbasePool, namespace: string, rawTableName: string, normalizedTableName: string,
                 decodeRaw: Bytes -> Option<RawEvent>, decodeNormalized: Bytes -> Option<ValidSocEvent>)
      ensures this.pool == pool && this.namespace == namespace
      ensures this.rawTableName == rawTableName && this.normalizedTableName == normalizedTableName
      ensures this.decodeRaw == decodeRaw && this.decodeNormalized == decodeNormalized
    {
      this.pool := pool;
      this.namespace := namespace;
      this.rawTableName := rawTableName;
      this.normalizedTableName := normalizedTableName;
      this.decodeRaw := decodeRaw;
      this.decodeNormalized := decodeNormalized;
    }

    /** `full_raw_table_name` / `full_normalized_table_name`. */
    function FullRawTableName(): string
    {
      FullTableName(namespace, rawTableName)
    }

    function FullNormalizedTableName(): string
    {
      FullTableName(namespace, normalizedTableName)
    }

    /** `get_raw_events` as a specification: the transient error that
        outlasts the retries yields no events; any other failure, a missing
        cell or an undecodable one escapes. */
    function GetRawEventsSpec(log: seq<Lookup>, ids: seq<string>): (Outcome<seq<string>>, seq<Lookup>)
    {
      var (f, log') := GetEventsSpec(pool.respond, log, ids, FullRawTableName());
      match f
      case GaveUp(_) => (Done([]), log')
      case Failed => (Raised, log')
      case Fetched(cells) =>
        (match DecodeAll(decodeRaw, cells) case Some(evs) => Done(RawTexts(evs)) case None => Raised, log')
    }

    /** `get_normalized_events` as a specification, likewise. */
    function GetNormalizedEventsSpec(log: seq<Lookup>, ids: seq<string>): (Outcome<seq<ValidSocEvent>>, seq<Lookup>)
    {
      var (f, log') := GetEventsSpec(pool.respond, log, ids, FullNormalizedTableName());
      match f
      case GaveUp(_) => (Done([]), log')
      case Failed => (Raised, log')
      case Fetched(cells) =>
        (match DecodeAll(decodeNormalized, cells) case Some(evs) => Done(evs) case None => Raised, log')
    }

    /** `_get_events_from_hbase`: the `@retry(..., tries=3)` loop around one
        batch lookup. */
    method GetEventsFromHbase(ids: seq<string>, table: string) returns (f: Fetch)
      modifies pool
      ensures (f, pool.log) == GetEventsSpec(pool.respond, old(pool.log), ids, table)
    {
      if ids == [] {
        return Fetched([]);
      }
      var lookup := Lookup(table, ids, [EventColumn]);
      var tries := LookupTries;
      while true
        invariant 1 <= tries <= LookupTries
        invariant FetchSpec(pool.respond, pool.log, lookup, tries) == GetEventsSpec(pool.respond, old(pool.log), ids, table)
        decreases tries
      {
        var reply := pool.Rows(lookup);
        match reply {
          case Rows(rows) =>
            var cells := ReadCells(rows);
            f := if cells.Some? then Fetched(cells.value) else Failed;
            return;
          case Broken =>
            return Failed;
          case Transient(e) =>
            if tries == 1 {
              return GaveUp(e);
            }
            tries := tries - 1;
        }
      }
    }

    /** `get_raw_events`. */
    method GetRawEvents(ids: seq<string>) returns (r: Outcome<seq<string>>)
      modifies pool
      ensures (r, pool.log) == GetRawEventsSpec(old(pool.log), ids)
    {
      var f := GetEventsFromHbase(ids, FullRawTableName());
      match f {
        case GaveUp(_) => r := Done([]);
        case Failed => r := Raised;
        case Fetched(cells) =>
          var evs := DecodeAll(decodeRaw, cells);
          r := if evs.Some? then Done(RawTexts(evs.value)) else Raised;
      }
    }

    /** `get_normalized_events`. */
    method GetNormalizedEvents(ids: seq<string>) returns (r: Outcome<seq<ValidSocEvent>>)
      modifies pool
      ensures (r, pool.log) == GetNormalizedEventsSpec(old(pool.log), ids)
    {
      var f := GetEventsFromHbase(ids, FullNormalizedTableName());
      match f {
        case GaveUp(_) => r := Done([]);
        case Failed => r := Raised;
        case Fetched(cells) =>
          var evs := DecodeAll(decodeNormalized, cells);
          r := if evs.Some? then Done(evs.value) else Raised;
      }
    }

    /** The raw events read: nothing for an empty id list, nothing when the
        transient failures outlast the retries, otherwise one text per returned
        row in row order, or an escaping exception. */
    lemma RawEventsShape(log: seq<Lookup>, ids: seq<string>)
      ensures ids == [] ==> GetRawEventsSpec(log, ids) == (Done([]), log)
      ensures var (f, _) := GetEventsSpec(pool.respond, log, ids, FullRawTableName());
        var out := GetRawEventsSpec(log, ids).0;
        && (f.GaveUp? ==> out == Done([]))
        && (f.Failed? ==> out == Raised)
        && (f.Fetched? ==>
              && (out.Done? <==> forall i :: 0 <= i < |f.cells| ==> decodeRaw(f.cells[i]).Some?)
              && (out.Done? ==> |out.value| == |f.cells|)
              && (out.Done? ==> forall i :: 0 <= i < |f.cells| ==> out.value[i] == decodeRaw(f.cells[i]).value.raw))
    {
    }
  }
}
