/** Small value types shared by the back-end and front-end models. */
module Common {

  /** A value that may be missing: Python's `None`, JavaScript's `null`/`NaN`. */
  datatype Option<+T> = None | Some(value: T)

  /** What a FastAPI handler produces: the value it returns, or the
      `HTTPException(status, detail)` it raises. */
  datatype Result<+T> = Ok(value: T) | Err(status: int, detail: string)

  /** One field of a partial-update payload read with `dict(exclude_unset=True)`:
      either the client left it out, or it sent a value (which may itself be null). */
  datatype Campo<+T> = Ausente | Presente(value: T)

  /** A non-empty set of keys has a member to pick. */
  lemma TemElemento(s: set<int>)
    requires s != {}
    ensures exists x :: x in s
  {
    if forall x :: x !in s { assert false; }
  }
}
