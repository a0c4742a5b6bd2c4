/** Null-able values and error results shared by every module of the model.
    `Option.None` stands for a Java `null`; `Result.Err` for a thrown exception. */
module Results {

  datatype Option<+T> = None | Some(value: T)

  datatype Result<+T, +E> = Ok(value: T) | Err(error: E)
}
