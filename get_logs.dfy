/** The server actions `getLogs` and `clearLogs`: the log store behind a guard on empty ids. */
module GetLogs {
  import opened LogStore

  /** `getLogs(logId)`: no entries for the empty id, otherwise that id's entries. */
  method GetLogs(store: LogStore, logId: string) returns (r: seq<Entry>)
    requires store.Valid()
    ensures logId == "" ==> r == []
    ensures logId != "" ==> r == store.GetServerLogs(logId)
    ensures |r| <= Limit
  {
    if logId == "" {
      return [];
    }
    r := store.GetServerLogs(logId);
  }

  /** `clearLogs(logId)`: nothing for the empty id, otherwise that id's entries are dropped. */
  method ClearLogs(store: LogStore, logId: string)
    requires store.Valid()
    modifies store
    ensures store.Valid()
    ensures store.listeners == old(store.listeners) && store.delivered == old(store.delivered)
    ensures logId == "" ==> store.buffers == old(store.buffers) && store.order == old(store.order)
    ensures logId != "" ==> store.buffers == old(store.buffers) - {logId} && store.order == Removed(old(store.order), logId)
  {
    if logId == "" {
      return;
    }
    store.ClearServerLogs(logId);
  }
}
