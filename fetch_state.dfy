/**
 * What a dining page receives from its backend hook, and the three ways a
 * page can show it. The hook itself (its cache, de-duplication and retry) is
 * not part of this model: a page only sees one snapshot at a time.
 */
module FetchState {

  datatype Option<+T> = None | Some(value: T)

  /** One snapshot of a backend query as a page sees it on one render.
      `data` is None while nothing has been fetched (or after a failure with
      no earlier success); Some([]) is a fetched, empty list. */
  datatype Query<T, E> = Query(data: Option<seq<T>>, error: Option<E>, isFetching: bool)

  /** The body of a page below its heading: a spinner, the table with the
      props it is given, or an "offered today" message. */
  datatype View<P> = Loading | Table(props: P) | Empty

  /** The GET request a page hands to its backend hook: the cache key, the
      HTTP method if the page names one, and the URL. */
  datatype BackendCall = BackendCall(queryKey: seq<string>, httpMethod: Option<string>, url: string)
}
