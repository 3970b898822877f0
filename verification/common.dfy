/** Small shared vocabulary: optional values, results, the three outcomes of a
    file-status query, and path joining. */
module Common {

  datatype Option<T> = None | Some(value: T)

  datatype Result<T, E> = Success(value: T) | Failure(error: E)

  /** What a status query on a path reports: the path is there, it is not
      there, or the query failed for another reason (permissions, I/O). */
  datatype Stat = Present | Missing | StatFailure

  /** Joining a directory and a name with the path separator. */
  function Join(dir: string, name: string): string
  {
    dir + "/" + name
  }
}
