/** Results of operations that may abort: `die` ends the process, here it is a value. */
module Results {
  datatype Result<T> = Ok(value: T) | Died(why: string)
}
