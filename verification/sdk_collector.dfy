/**
 * The shape the BSS SDK collectors share: no client means `collect`
 * returns at once; otherwise a request is built and sent, and the
 * response's total is written before its list of records is walked.
 */
module SdkCollector {
  import opened Wrappers
  import opened PyValue
  import opened BaseCollector
  import opened Metrics
  import opened Gauges

  /**
   * `collect` up to the response: nothing without a client; a request
   * that cannot be built (`None`) or an SDK call that raises (`respond`
   * gives `None`) ends it before any write; otherwise `onData` handles
   * the response data.
   */
  function CallEffect<R>(client: Option<SdkClient>, request: Option<R>,
                         respond: (SdkClient, R) -> Option<map<string, Value>>,
                         onData: map<string, Value> -> Effect): (e: Effect)
    ensures client.None? ==> e == Done([])
    ensures client.Some? && request.None? ==> e == Aborted
    ensures client.Some? && request.Some? && respond(client.value, request.value).None? ==> e == Aborted
    ensures client.Some? && request.Some? && respond(client.value, request.value).Some? ==>
              e == onData(respond(client.value, request.value).value)
  {
    if client.None? then Done([])
    else match request
      case None => Aborted
      case Some(body) =>
        match respond(client.value, body)
        case Some(data) => onData(data)
        case None => Aborted
  }

  /**
   * A record list: `len()` is taken first (for the log line) and raises
   * on a value without a length; an empty list ends `collect`; otherwise
   * `body` runs for each record until one raises.
   */
  function ListEffect(list: Value, body: Value -> Effect): (e: Effect)
    ensures PyLen(list).None? ==> e == Aborted
    ensures list.List? && list.items != [] ==> e == ForEach(list.items, body)
    ensures !Truthy(list) && PyLen(list).Some? ==> e == Done([])
  {
    if PyLen(list).None? then Aborted
    else if !Truthy(list) then Done([])
    else match PyIter(list)
      case Some(xs) => ForEach(xs, body)
      case None => Aborted
  }

  /** A gauge set from a number (`float()` of `v`), then the record list. */
  function NumberThenList(head: Series, v: Value, list: Value, body: Value -> Effect): Effect {
    Then(SetNumber(head, v), ListEffect(list, body))
  }

  /** The response data: the total gauge (`float()` of `total_count`, default 0), then the record list. */
  function TotalThenList(total: Series, data: map<string, Value>, listKey: string, body: Value -> Effect): Effect {
    NumberThenList(total, Get(data, "total_count", Int(0)), Get(data, listKey, List([])), body)
  }

  /** When no record writes the metric, a list leaves it alone. */
  lemma ListAvoids(list: Value, body: Value -> Effect, metric: string)
    requires forall x :: Avoids(body(x).ops, metric)
    ensures Avoids(ListEffect(list, body).ops, metric)
  {
    if PyLen(list).Some? && Truthy(list) && PyIter(list).Some? {
      ForEachAvoids(PyIter(list).value, body, metric);
    }
  }

  /** When every record's writes satisfy `p`, so do the list's. */
  lemma ListAll(list: Value, body: Value -> Effect, p: Op -> bool)
    requires forall x :: All(body(x).ops, p)
    ensures All(ListEffect(list, body).ops, p)
  {
    if PyLen(list).Some? && Truthy(list) && PyIter(list).Some? {
      ForEachAll(PyIter(list).value, body, p);
    }
  }

  /** The head gauge is written before the list is looked at, so it stands whatever the records do. */
  lemma HeadWrittenFirst(head: Series, v: Value, list: Value, body: Value -> Effect)
    requires forall x :: Avoids(body(x).ops, head.metric)
    ensures LastGauge(NumberThenList(head, v, list, body).ops, head) == ToFloat(v)
    ensures NumberThenList(head, v, list, body).completed ==> ToFloat(v).Some?
  {
    ListAvoids(list, body, head.metric);
    ThenGaugeFirst(SetNumber(head, v), ListEffect(list, body), head);
    if ToFloat(v).Some? {
      LastGaugeOf([], head, ToFloat(v).value, []);
    }
  }

  /** The total is written before the list is looked at, so it stands whatever the records do. */
  lemma TotalWrittenFirst(total: Series, data: map<string, Value>, listKey: string, body: Value -> Effect)
    requires forall x :: Avoids(body(x).ops, total.metric)
    ensures LastGauge(TotalThenList(total, data, listKey, body).ops, total) == ToFloat(Get(data, "total_count", Int(0)))
    ensures TotalThenList(total, data, listKey, body).completed ==> ToFloat(Get(data, "total_count", Int(0))).Some?
  {
    HeadWrittenFirst(total, Get(data, "total_count", Int(0)), Get(data, listKey, List([])), body);
  }

  /** With the list missing or empty, the total is the only write. */
  lemma EmptyListOnlyTotal(total: Series, data: map<string, Value>, listKey: string, body: Value -> Effect)
    requires ToFloat(Get(data, "total_count", Int(0))).Some?
    requires listKey !in data || (!Truthy(data[listKey]) && PyLen(data[listKey]).Some?)
    ensures TotalThenList(total, data, listKey, body) == Done([SetGauge(total, ToFloat(Get(data, "total_count", Int(0))).value)])
  {
    assert [SetGauge(total, ToFloat(Get(data, "total_count", Int(0))).value)] + [] == [SetGauge(total, ToFloat(Get(data, "total_count", Int(0))).value)];
  }

  /**
   * The head gauge and then the records, straight-line code per record:
   * `reg` ends up with the writes of `NumberThenList`.
   */
  method RunNumberThenList(reg: Registry, head: Series, v: Value, list: Value, body: Value -> Effect)
    returns (completed: bool)
    modifies reg
    ensures reg.State() == Apply(old(reg.State()), NumberThenList(head, v, list, body).ops)
    ensures completed == NumberThenList(head, v, list, body).completed
  {
    var x := ToFloat(v);
    if x.None? {
      return false;
    }
    var headOps := [SetGauge(head, x.value)];
    reg.Set(head, x.value);
    if PyLen(list).None? {
      assert headOps + [] == headOps;
      return false;
    }
    if !Truthy(list) {
      assert headOps + [] == headOps;
      return true;
    }
    var xs := PyIter(list);
    if xs.None? {
      assert headOps + [] == headOps;
      return false;
    }
    completed := reg.RunEach(xs.value, body);
    ApplyConcat(old(reg.State()), headOps, ForEach(xs.value, body).ops);
  }

  /** The total and then the records: `reg` ends up with the writes of `TotalThenList`. */
  method RunTotalThenList(reg: Registry, total: Series, data: map<string, Value>, listKey: string, body: Value -> Effect)
    returns (completed: bool)
    modifies reg
    ensures reg.State() == Apply(old(reg.State()), TotalThenList(total, data, listKey, body).ops)
    ensures completed == TotalThenList(total, data, listKey, body).completed
  {
    completed := RunNumberThenList(reg, total, Get(data, "total_count", Int(0)), Get(data, listKey, List([])), body);
  }
}
