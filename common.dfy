/** Values shared by every part of the instance client: optional values, the
    exceptions the client throws and catches, results that carry either, and
    what the client reads from a local package file. */
module Common {

  datatype Option<+T> = None | Some(value: T)

  /** The exceptions that cross the client's boundary. Every variant carries the
      text its `message` property gives. */
  datatype Exception =
    | DeployException(message: string, cause: Option<Exception>)
      // any exception thrown by code outside the model: the HTTP client's I/O, a parser
    | Foreign(message: string)
      // Kotlin's UninitializedPropertyAccessException, thrown when a `lateinit var` is read unset
    | UninitializedProperty(message: string)

  /** A call that either returns `value` or throws `error`. */
  datatype Result<+T> = Ok(value: T) | Err(error: Exception)

  /** `DeployException(message, cause)`: the client's way of re-throwing a caught exception. */
  function Wrap(message: string, cause: Exception): Exception
  {
    DeployException(message, Some(cause))
  }

  /** The (group, name, version) triple that identifies a package. */
  datatype PackageId = PackageId(group: string, name: string, version: string)

  /** A local package file as the client sees it: its path (also its `toString()`),
      whether it exists on disk (`exists()`), and the identity read from the archive's vault
      properties entry, or None when the archive has no such entry. */
  datatype LocalFile = LocalFile(path: string, onDisk: bool, descriptor: Option<PackageId>)

  /** `n` copies of `x`. */
  function Repeat<T>(x: T, n: nat): (r: seq<T>)
    ensures |r| == n
  {
    seq(n, _ => x)
  }

  lemma RepeatSnoc<T>(prefix: seq<T>, x: T, n: nat)
    ensures prefix + Repeat(x, n) + [x] == prefix + Repeat(x, n + 1)
  {
  }

  lemma ConcatAssoc<T>(a: seq<T>, b: seq<T>, c: seq<T>)
    ensures a + b + c == a + (b + c)
  {
  }
}
