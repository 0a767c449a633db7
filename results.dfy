/** Optional values, results, and the exceptions the panel code can raise. */
module Results {

  datatype Option<T> = None | Some(value: T)

  /** The Python exceptions that escape the modelled methods. */
  datatype Error =
    | NotANumber(raw: string)      // float(value) raises ValueError on initial data
    | NoColumns                    // i % len(fields) raises ZeroDivisionError for an empty schema
    | ZeroStep                     // range(..., ..., 0) raises ValueError for an empty schema
    | NoValueMethod(column: nat)   // input.value() on a check box raises AttributeError

  datatype Result<T> = Ok(value: T) | Err(error: Error)
}
