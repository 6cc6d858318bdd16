/**
 * server/api/tasks/recent-trades.get.ts: a lookup of the stored tasks by
 * id, built in a loop that skips entries that do not parse, and the
 * formatting of the most recent mock trades with their task's name and mode.
 */
module RecentTrades {
  import opened Wrappers
  import opened JsNumber
  import opened JsValue
  import opened Tasks

  /** A stored task entry as `JSON.parse` sees it, reduced to the three fields read. */
  datatype ParsedTask = ParsedTask(id: Option<string>, taskType: Option<string>, url: Option<string>)

  /** The route's minimal `CopyTask`. */
  datatype TaskRef = TaskRef(id: Option<string>, taskType: string, url: string)

  /** `{ id: task.id, type: task.type || 'mock', url: task.url || '' }` */
  function TaskRefOf(t: ParsedTask): (r: TaskRef)
    ensures r.id == t.id && r.taskType != ""
    ensures r.taskType == StrOr(t.taskType, "mock") && r.url == StrOr(t.url, "")
  {
    TaskRef(t.id, StrOr(t.taskType, "mock"), StrOr(t.url, ""))
  }

  /**
   * The map after the loop has visited `entries` in order; `None` stands
   * for a value that does not parse. A later entry with the same id
   * replaces an earlier one.
   */
  function TasksMapOf(entries: seq<Option<ParsedTask>>): (r: map<Option<string>, TaskRef>)
    ensures forall id :: id in r ==> r[id].id == id && r[id].taskType != ""
    decreases |entries|
  {
    if |entries| == 0 then map[]
    else
      var m := TasksMapOf(entries[..|entries| - 1]);
      match entries[|entries| - 1]
      case None => m
      case Some(t) => m[t.id := TaskRefOf(t)]
  }

  /** The `for ... of Object.entries(allTasksStr)` loop with its `try`/`catch`. */
  method BuildTasksMap(entries: seq<Option<ParsedTask>>) returns (tasksMap: map<Option<string>, TaskRef>)
    ensures tasksMap == TasksMapOf(entries)
  {
    tasksMap := map[];
    for i := 0 to |entries|
      invariant tasksMap == TasksMapOf(entries[..i])
    {
      assert entries[..i + 1][..i] == entries[..i];
      var parsed := entries[i];
      if parsed.Some? {
        var task := parsed.value;
        tasksMap := tasksMap[task.id := TaskRef(task.id, StrOr(task.taskType, "mock"), StrOr(task.url, ""))];
      }
    }
    assert entries[..|entries|] == entries;
  }

  /** An id is in the map exactly when some entry that parses carries it. */
  lemma {:induction false} TasksMapKeys(entries: seq<Option<ParsedTask>>, id: Option<string>)
    ensures id in TasksMapOf(entries) <==>
      exists i :: 0 <= i < |entries| && entries[i].Some? && entries[i].value.id == id
    decreases |entries|
  {
    if |entries| > 0 {
      var init := entries[..|entries| - 1];
      TasksMapKeys(init, id);
      assert forall i :: 0 <= i < |init| ==> init[i] == entries[i];
      if id in TasksMapOf(entries) && id !in TasksMapOf(init) {
        assert entries[|entries| - 1].Some? && entries[|entries| - 1].value.id == id;
      }
    }
  }

  /** The value under an id comes from the last entry that carries it. */
  lemma {:induction false} TasksMapLastWins(entries: seq<Option<ParsedTask>>, i: nat)
    requires i < |entries| && entries[i].Some?
    requires forall j :: i < j < |entries| && entries[j].Some? ==> entries[j].value.id != entries[i].value.id
    ensures entries[i].value.id in TasksMapOf(entries)
    ensures TasksMapOf(entries)[entries[i].value.id] == TaskRefOf(entries[i].value)
    decreases |entries|
  {
    if i < |entries| - 1 {
      var init := entries[..|entries| - 1];
      assert forall j :: 0 <= j < |init| ==> init[j] == entries[j];
      TasksMapLastWins(init, i);
    }
  }

  /** `TradeData` */
  datatype TradeData = TradeData(
    taskId: string,
    taskName: string,
    mode: string,
    side: string,
    title: string,
    outcome: string,
    usdcAmount: Number,
    fillPrice: Number,
    fillSize: Number,
    realizedPnl: NumField,
    executedAt: Number)

  /** `trade.title || trade.slug || trade.conditionId || 'Unknown'` */
  function TradeTitle(trade: Trade): (s: string)
    ensures s != ""
    ensures trade.title.Some? && trade.title.value != "" ==> s == trade.title.value
    ensures !(trade.title.Some? && trade.title.value != "") && trade.slug.Some? && trade.slug.value != "" ==>
      s == trade.slug.value
    ensures StrOr(trade.title, "") == "" && StrOr(trade.slug, "") == "" ==>
      s == (if trade.conditionId != "" then trade.conditionId else "Unknown")
  {
    StrOr(trade.title, StrOr(trade.slug, if trade.conditionId != "" then trade.conditionId else "Unknown"))
  }

  /**
   * One formatted trade; `pathname` is the pathname of a URL, `None` when
   * `new URL` throws (the route's own copy of `extractProfileName`).
   */
  function FormatTrade(trade: Trade, tasksMap: map<Option<string>, TaskRef>, pathname: string -> Option<string>)
    : (d: TradeData)
    ensures d.taskId == trade.taskId && d.side == trade.side && d.title == TradeTitle(trade)
    ensures Some(trade.taskId) !in tasksMap ==> d.taskName == "Unknown" && d.mode == "mock"
    ensures Some(trade.taskId) in tasksMap ==>
      d.taskName == ExtractProfileName(pathname(tasksMap[Some(trade.taskId)].url))
      && d.mode == StrOr(Some(tasksMap[Some(trade.taskId)].taskType), "mock")
    ensures d.taskName != "" && d.mode != ""
    ensures d.outcome == StrOr(trade.outcome, "")
    ensures d.usdcAmount == OrIfMissing(trade.usdcAmount, Fin(0.0))
    ensures d.fillPrice == OrIfMissing(trade.fillPrice, Fin(0.0)) && d.fillSize == OrIfMissing(trade.fillSize, Fin(0.0))
    ensures d.realizedPnl == trade.realizedPnl && d.executedAt == OrIfMissing(trade.executedAt, Fin(0.0))
  {
    var task := if Some(trade.taskId) in tasksMap then Some(tasksMap[Some(trade.taskId)]) else None;
    TradeData(
      taskId := trade.taskId,
      taskName := if task.Some? then ExtractProfileName(pathname(task.value.url)) else "Unknown",
      mode := StrOr(if task.Some? then Some(task.value.taskType) else None, "mock"),
      side := trade.side,
      title := TradeTitle(trade),
      outcome := StrOr(trade.outcome, ""),
      usdcAmount := OrIfMissing(trade.usdcAmount, Fin(0.0)),
      fillPrice := OrIfMissing(trade.fillPrice, Fin(0.0)),
      fillSize := OrIfMissing(trade.fillSize, Fin(0.0)),
      realizedPnl := trade.realizedPnl,
      executedAt := OrIfMissing(trade.executedAt, Fin(0.0)))
  }

  /** The route's `data`, for the trades the query returned. */
  function RecentTradesData(entries: seq<Option<ParsedTask>>, trades: seq<Trade>, pathname: string -> Option<string>)
    : (r: seq<TradeData>)
    ensures |r| == |trades|
    ensures forall i :: 0 <= i < |trades| ==> r[i] == FormatTrade(trades[i], TasksMapOf(entries), pathname)
  {
    var tasksMap := TasksMapOf(entries);
    seq(|trades|, i requires 0 <= i < |trades| => FormatTrade(trades[i], tasksMap, pathname))
  }

  /**
   * A trade of a task that is stored last under its id is shown with that
   * task's mode (`mock` when it has none) and the profile name of its URL.
   */
  lemma TradeOfStoredTask(entries: seq<Option<ParsedTask>>, i: nat, trade: Trade, pathname: string -> Option<string>)
    requires i < |entries| && entries[i].Some? && entries[i].value.id == Some(trade.taskId)
    requires forall j :: i < j < |entries| && entries[j].Some? ==> entries[j].value.id != Some(trade.taskId)
    ensures var d := FormatTrade(trade, TasksMapOf(entries), pathname);
      d.mode == StrOr(entries[i].value.taskType, "mock")
      && d.taskName == ExtractProfileName(pathname(StrOr(entries[i].value.url, "")))
  {
    TasksMapLastWins(entries, i);
  }

  /** A trade whose task is not stored (or does not parse) is shown as an unknown mock task. */
  lemma TradeOfUnknownTask(entries: seq<Option<ParsedTask>>, trade: Trade, pathname: string -> Option<string>)
    requires forall j :: 0 <= j < |entries| && entries[j].Some? ==> entries[j].value.id != Some(trade.taskId)
    ensures var d := FormatTrade(trade, TasksMapOf(entries), pathname);
      d.taskName == "Unknown" && d.mode == "mock"
  {
    TasksMapKeys(entries, Some(trade.taskId));
  }
}
