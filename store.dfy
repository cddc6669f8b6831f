/** The remote record store seen from the services: what a call returned
    (or that it threw), and how every service turns a reply into a value,
    an empty list, `null`, or a rejection. The calls themselves are not
    modelled; each reply is a parameter. */
module Store {
  import opened Common

  /** One element of a mutation reply's `results` array. */
  datatype Entry<T> = Entry(success: bool, data: Option<T>)

  /** The outcome of a read call (`fetchRecords`, `getRecordById`): either
      the client threw, or it answered `{ success, message, data }`. */
  datatype ReadReply<T> =
    | ReadThrew(message: string)
    | ReadReplied(success: bool, message: string, data: Option<T>)

  /** The outcome of a mutation call (`createRecord`, `updateRecord`,
      `deleteRecord`): either the client threw, or it answered
      `{ success, message, results }`. */
  datatype WriteReply<T> =
    | WriteThrew(message: string)
    | WriteReplied(success: bool, message: string, results: Option<seq<Entry<T>>>)

  predicate Succeeded<T>(e: Entry<T>) { e.success }
  predicate Failed<T>(e: Entry<T>) { !e.success }

  /** The store succeeded and no entry of `results` failed. */
  predicate AllSucceeded<T>(r: WriteReply<T>) {
    r.WriteReplied? && r.success
    && (r.results.Some? ==> forall i :: 0 <= i < |r.results.value| ==> r.results.value[i].success)
  }

  /** A list read (`getAll` and the query helpers): any failure is logged
      and swallowed, so the caller sees `[]`; otherwise `response.data || []`. */
  function ListRead<T>(r: ReadReply<seq<T>>): (xs: seq<T>)
    ensures r.ReadThrew? || !r.success ==> xs == []
    ensures r.ReadReplied? && r.success && r.data.Some? ==> xs == r.data.value
    ensures r.ReadReplied? && r.success && r.data.None? ==> xs == []
  {
    match r
    case ReadThrew(_) => []
    case ReadReplied(ok, _, data) => if !ok then [] else if data.Some? then data.value else []
  }

  /** A single-record read (`getById`): failures are rethrown with the
      store's message; a successful reply yields its `data`, which may be
      absent. */
  function ReadOne<T>(r: ReadReply<T>): (res: Result<Option<T>>)
    ensures res.Err? <==> r.ReadThrew? || !r.success
    ensures res.Err? ==> res.message == r.message
    ensures res.Ok? ==> res.value == r.data
  {
    match r
    case ReadThrew(m) => Err(m)
    case ReadReplied(ok, m, data) => if !ok then Err(m) else Ok(data)
  }

  /** `successfulRecords[0]?.data`. */
  function FirstSuccessfulData<T>(rs: seq<Entry<T>>): Option<T> {
    var successful := Filter(rs, Succeeded);
    if successful == [] then None else successful[0].data
  }

  /** The create/update reply policy shared by every service: a thrown
      error or `!success` rejects with the store's message; a reply whose
      `results` hold a failed entry rejects with `failText`; otherwise the
      first successful entry's data; no `results` at all gives `null`. */
  function WriteResult<T>(r: WriteReply<T>, failText: string): (res: Result<Option<T>>)
    ensures res.Err? <==> r.WriteThrew? || !r.success
                          || (r.results.Some? && exists i :: 0 <= i < |r.results.value| && !r.results.value[i].success)
    ensures r.WriteThrew? || !r.success ==> res == Err(r.message)
    ensures r.WriteReplied? && r.success && res.Err? ==> res.message == failText
    ensures res.Ok? && r.results.Some? && r.results.value != [] ==> res.value == r.results.value[0].data
    ensures res.Ok? && (r.results.None? || r.results.value == []) ==> res.value == None
    ensures res.Ok? <==> AllSucceeded(r)
  {
    match r
    case WriteThrew(m) => Err(m)
    case WriteReplied(ok, m, results) =>
      if !ok then Err(m)
      else if results.None? then Ok(None)
      else
        var rs := results.value;
        FilterNonEmpty(rs, Failed);
        if |Filter(rs, Failed)| > 0 then Err(failText)
        else
          assert forall e :: e in rs ==> Succeeded(e);
          FilterKeepsAll(rs, Succeeded);
          Ok(FirstSuccessfulData(rs))
  }

  /** The delete reply policy: a thrown error or `!success` rejects with the
      store's message, a failed entry rejects with `failText`, anything else
      is `{ success: true }`. */
  function DeleteResult<T>(r: WriteReply<T>, failText: string): (res: Result<()>)
    ensures res.Ok? <==> AllSucceeded(r)
    ensures r.WriteThrew? || !r.success ==> res == Err(r.message)
    ensures r.WriteReplied? && r.success && res.Err? ==> res.message == failText
  {
    match r
    case WriteThrew(m) => Err(m)
    case WriteReplied(ok, m, results) =>
      if !ok then Err(m)
      else if results.None? then Ok(())
      else
        FilterNonEmpty(results.value, Failed);
        if |Filter(results.value, Failed)| > 0 then Err(failText) else Ok(())
  }
}
