/** What every request handler shares: the HTTP error a handler raises, the
    trace of service calls it made, the pagination defaults, and the two ways a
    service result is turned into a response or a 404. */
module Http {
  import opened Wrappers
  import Seqs

  const StatusBadRequest: int := 400
  const StatusNotFound: int := 404

  /** An `HTTPException`: a status code and a fixed detail message. */
  datatype HttpError = HttpError(status: int, detail: string)

  /** The outcome of one request: the service calls the handler issued, in
      order, and the error or the response it produced. */
  datatype Handled<Q, T> = Handled(calls: seq<Q>, result: Result<T, HttpError>)

  const DefaultPageNumber: int := 1
  const DefaultPageSize: int := 50

  /** The `page[number]` and `page[size]` query parameters, as given (or not)
      by the client. Any integer is accepted; the handlers do no clamping. */
  datatype PageParams = PageParams(number: Option<int>, size: Option<int>)

  /** The page number forwarded to the service. */
  function PageNumber(p: PageParams): (n: int)
    ensures p.number.None? ==> n == 1
    ensures p.number.Some? ==> n == p.number.value
  {
    p.number.GetOr(DefaultPageNumber)
  }

  /** The page size forwarded to the service. */
  function PageSize(p: PageParams): (n: int)
    ensures p.size.None? ==> n == 50
    ensures p.size.Some? ==> n == p.size.value
  {
    p.size.GetOr(DefaultPageSize)
  }

  /** A list endpoint's response: 404 with `detail` when the service returned
      an empty list, otherwise every item projected, in the service's order. */
  function ListOrNotFound<A, B>(items: seq<A>, project: A -> B, detail: string): (r: Result<seq<B>, HttpError>)
    ensures r.Err? <==> |items| == 0
    ensures r.Err? ==> r.error == HttpError(StatusNotFound, detail)
    ensures r.Ok? ==> |r.value| == |items|
    ensures r.Ok? ==> forall i :: 0 <= i < |items| ==> r.value[i] == project(items[i])
  {
    if |items| == 0 then Err(HttpError(StatusNotFound, detail))
    else Ok(Seqs.Map(project, items))
  }

  /** A detail endpoint's response: 404 with `detail` when the service found
      nothing, otherwise the item rebuilt into the response shape. */
  function FoundOrNotFound<A, B>(item: Option<A>, rebuild: A -> B, detail: string): (r: Result<B, HttpError>)
    ensures r.Err? <==> item.None?
    ensures r.Err? ==> r.error == HttpError(StatusNotFound, detail)
    ensures r.Ok? ==> r.value == rebuild(item.value)
  {
    match item
    case None => Err(HttpError(StatusNotFound, detail))
    case Some(x) => Ok(rebuild(x))
  }
}
