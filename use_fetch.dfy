/**
 * The `useFetch` hook of src/hooks/useFetch.ts: the request bookkeeping of
 * `execute` and the `isServerError` classifier. The request itself is not
 * performed: how it ended is an input.
 */
module UseFetch {
  import opened Wrappers

  /**
   * What `execute` can catch: the `{errCode}` object it throws itself for a
   * status other than 200, or an `Error` object (thrown by `fetch` or by
   * `json()`), which has a `name` and no `errCode`.
   */
  datatype FetchError = CustomError(errCode: int) | ErrorObject(name: string)

  /**
   * How the awaited request ended: an HTTP response with its status and its
   * body, which is `None` when it does not parse as JSON; or a rejection of
   * `fetch` with an `Error` of the given name (a network failure, or an
   * abort).
   */
  datatype Outcome<T> = Responded(status: int, body: Option<T>) | Threw(name: string)

  const ABORT_ERROR: string := "AbortError"
  const SYNTAX_ERROR: string := "SyntaxError"
  const HTTP_OK: int := 200
  const HTTP_SERVER_ERROR: int := 500

  /** `isServerError`: present, carries an `errCode`, and that code is 500. */
  function IsServerError(err: Option<FetchError>): (b: bool)
    ensures b <==> err == Some(CustomError(HTTP_SERVER_ERROR))
  {
    err.Some? && err.value.CustomError? && err.value.errCode == HTTP_SERVER_ERROR
  }

  /** The catch block's filter: an abort is swallowed, everything else is recorded. */
  function Recorded(err: FetchError): (r: Option<FetchError>)
    ensures r.None? <==> err == ErrorObject(ABORT_ERROR)
    ensures r.Some? ==> r.value == err
  {
    if err.ErrorObject? && err.name == ABORT_ERROR then None else Some(err)
  }

  /** What the try block of `execute` throws, or `None` when it completes. */
  function Thrown<T>(o: Outcome<T>): (e: Option<FetchError>)
    ensures e.None? <==> o.Responded? && o.status == HTTP_OK && o.body.Some?
    ensures o.Responded? && o.status != HTTP_OK ==> e == Some(CustomError(o.status))
    ensures o.Threw? ==> e == Some(ErrorObject(o.name))
  {
    match o
    case Responded(status, body) =>
      if status != HTTP_OK then Some(CustomError(status))
      else if body.None? then Some(ErrorObject(SYNTAX_ERROR))
      else None
    case Threw(name) => Some(ErrorObject(name))
  }

  /**
   * The `error` that `execute` leaves: nothing exactly when the request
   * delivered a parsed 200 body or was aborted; `{errCode: status}` for
   * every other status.
   */
  function Caught<T>(o: Outcome<T>): (e: Option<FetchError>)
    ensures e.None? <==> (o.Responded? && o.status == HTTP_OK && o.body.Some?) || (o.Threw? && o.name == ABORT_ERROR)
    ensures o.Responded? && o.status != HTTP_OK ==> e == Some(CustomError(o.status))
    ensures o.Threw? && o.name != ABORT_ERROR ==> e == Some(ErrorObject(o.name))
  {
    match Thrown(o)
    case None => None
    case Some(err) => Recorded(err)
  }

  /** The body `execute` stores in `data`: only a parsed body of a 200 response. */
  function Delivered<T>(o: Outcome<T>): (d: Option<T>)
    ensures d.Some? <==> o.Responded? && o.status == HTTP_OK && o.body.Some?
    ensures d.Some? ==> d == o.body
  {
    if Thrown(o).None? then o.body else None
  }

  /** `isServerError` of what `execute` records holds exactly for an HTTP 500 response. */
  lemma ServerErrorIffStatus500<T>(o: Outcome<T>)
    ensures IsServerError(Caught(o)) <==> o.Responded? && o.status == HTTP_SERVER_ERROR
  {
  }

  /** An aborted request leaves no error behind. */
  lemma AbortNotRecorded<T>(o: Outcome<T>)
    requires o == Threw(ABORT_ERROR)
    ensures Caught(o) == None && Delivered(o) == None
  {
  }

  /** The state one `useFetch` call keeps across renders. */
  class FetchHook<T> {
    var data: Option<T>
    var loading: bool
    var error: Option<FetchError>

    /** The hook's `useState` initial values. */
    constructor ()
      ensures data == None && !loading && error == None
    {
      data, loading, error := None, false, None;
    }

    /** The part of `execute` before the request is awaited: loading on, error cleared. */
    method Begin()
      modifies this
      ensures loading && error == None && data == old(data)
    {
      loading := true;
      error := None;
    }

    /** The catch block: record everything except an abort. */
    method Catch(err: FetchError)
      modifies this
      ensures error == (if Recorded(err).Some? then Recorded(err) else old(error))
      ensures data == old(data) && loading == old(loading)
    {
      if !(err.ErrorObject? && err.name == ABORT_ERROR) {
        error := Some(err);
      }
    }

    /** The part of `execute` after the request ended: try, catch, finally. */
    method Complete(o: Outcome<T>)
      modifies this
      ensures !loading
      ensures error == (if Thrown(o).Some? && Recorded(Thrown(o).value).Some? then Thrown(o) else old(error))
      ensures data == (if Delivered(o).Some? then Delivered(o) else old(data))
    {
      match o {
        case Responded(status, body) =>
          if status != HTTP_OK {
            Catch(CustomError(status));
          } else if body.None? {
            Catch(ErrorObject(SYNTAX_ERROR));
          } else {
            data := body;
          }
        case Threw(name) =>
          Catch(ErrorObject(name));
      }
      loading := false;
    }

    /**
     * `execute` as a whole: afterwards `loading` is off on every path,
     * `error` is what the attempt recorded (the old error is always gone),
     * and `data` changes only when a parsed 200 body arrived.
     */
    method Execute(o: Outcome<T>)
      modifies this
      ensures !loading
      ensures error == Caught(o)
      ensures data == (if Delivered(o).Some? then Delivered(o) else old(data))
    {
      Begin();
      Complete(o);
    }
  }
}
