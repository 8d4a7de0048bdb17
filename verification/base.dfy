/** Shared building blocks: optional values, results with HTTP errors, the
    dictionary values carried by token payloads and activity details, and the
    two query shapes every handler uses on a table (first matching row, all
    matching rows in table order). */
module Base {

  /** Python's `Optional[T]`: `None` or a value. */
  datatype Option<+T> = None | Some(value: T)

  /** A handler either returns a value or raises an HTTP error. */
  datatype Result<+T, +E> = Ok(value: T) | Err(error: E) {
    predicate IsFailure() {
      Err?
    }

    function PropagateFailure<U>(): Result<U, E>
      requires Err?
    {
      Err(error)
    }

    function Extract(): T
      requires Ok?
    {
      value
    }
  }

  /** An `HTTPException(status_code, detail)`; an exception the handler does
      not catch reaches the client as a 500. */
  datatype Error = HttpError(status: int, detail: string)

  const Unauthorized: int := 401
  const NotFound: int := 404
  const UnprocessableEntity: int := 422
  const InternalServerError: int := 500

  /** What FastAPI answers when a handler lets an exception escape. */
  const ServerFault: Error := HttpError(InternalServerError, "Internal Server Error")

  /** A value of a Python dict that is stored or signed: a token payload or
      the `details` column of an activity record. */
  datatype Value = Null | Int(i: int) | Str(s: string)

  type Payload = map<string, Value>

  /** Python's `d.get(key)`: a missing key reads as `None`. */
  function Get(d: Payload, key: string): Value {
    if key in d then d[key] else Null
  }

  /** `query.filter(p).first()`: the index of the first row satisfying `p`. */
  function FirstIndex<T>(rows: seq<T>, p: T -> bool): (r: Option<nat>)
    ensures r.Some? ==> r.value < |rows| && p(rows[r.value])
    ensures r.Some? ==> forall j :: 0 <= j < r.value ==> !p(rows[j])
    ensures r.None? <==> forall j :: 0 <= j < |rows| ==> !p(rows[j])
  {
    if |rows| == 0 then None
    else if p(rows[0]) then Some(0)
    else match FirstIndex(rows[1..], p)
      case None => None
      case Some(k) => Some(k + 1)
  }

  /** `query.filter(p).first()`: the first row satisfying `p`, if any. */
  function First<T>(rows: seq<T>, p: T -> bool): (r: Option<T>)
    ensures r.Some? ==> r.value in rows && p(r.value)
    ensures r.None? <==> forall j :: 0 <= j < |rows| ==> !p(rows[j])
  {
    match FirstIndex(rows, p)
    case None => None
    case Some(k) => Some(rows[k])
  }

  /** `query.filter(p).all()`: the rows satisfying `p`, in table order. */
  function Filter<T(!new)>(rows: seq<T>, p: T -> bool): (r: seq<T>)
    ensures |r| <= |rows|
    ensures forall i :: 0 <= i < |r| ==> p(r[i])
    ensures forall x :: x in r <==> x in rows && p(x)
    ensures multiset(r) <= multiset(rows)
  {
    if |rows| == 0 then []
    else
      var rest := Filter(rows[1..], p);
      assert rows == [rows[0]] + rows[1..];
      if p(rows[0]) then [rows[0]] + rest else rest
  }

  /** Appending a row adds it to a query's answer exactly when it matches. */
  lemma {:induction false} FilterAppend<T(!new)>(rows: seq<T>, x: T, p: T -> bool)
    ensures Filter(rows + [x], p) == Filter(rows, p) + (if p(x) then [x] else [])
  {
    if |rows| == 0 {
      assert rows + [x] == [x];
    } else {
      assert (rows + [x])[1..] == rows[1..] + [x];
      FilterAppend(rows[1..], x, p);
    }
  }

  /** Replacing one row changes the number of matching rows by what the old
      and the new row contribute. */
  lemma {:induction false} FilterUpdateCount<T(!new)>(rows: seq<T>, k: nat, y: T, p: T -> bool)
    requires k < |rows|
    ensures |Filter(rows[k := y], p)| ==
            |Filter(rows, p)| - (if p(rows[k]) then 1 else 0) + (if p(y) then 1 else 0)
  {
    if k == 0 {
      assert rows[k := y][1..] == rows[1..];
    } else {
      assert rows[k := y][1..] == rows[1..][k - 1 := y];
      FilterUpdateCount(rows[1..], k - 1, y, p);
    }
  }

  /** A query whose predicate no row satisfies has an empty answer. */
  lemma FilterNone<T(!new)>(rows: seq<T>, p: T -> bool)
    requires forall j :: 0 <= j < |rows| ==> !p(rows[j])
    ensures Filter(rows, p) == []
  {
  }

  function Min(a: int, b: int): int {
    if a <= b then a else b
  }
}
