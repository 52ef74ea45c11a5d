/**
 * The exceptions the service can end in, with their message texts.
 * All three are unchecked exceptions in Java; the model keeps the
 * class and the message, which is all a caller can observe.
 */
module Exceptions {

  datatype Exception =
    | IllegalArgumentException(message: string)
    | RepositoryNotFoundException(message: string)
    | RuntimeException(message: string)

  const NotFoundPrefix: string := "Repository '"
  const NotFoundSuffix: string := "' not found"

  /**
   * The text `Repository '<owner>/<name>' not found`, used by
   * `RepositoryNotFoundException` and by the service's generic
   * client-error path alike.
   */
  function NotFoundMessage(owner: string, repositoryName: string): (m: string)
    ensures |m| == |NotFoundPrefix| + |owner| + 1 + |repositoryName| + |NotFoundSuffix|
    ensures m[..|NotFoundPrefix|] == NotFoundPrefix
    ensures m[|NotFoundPrefix|..|NotFoundPrefix| + |owner|] == owner
    ensures m[|NotFoundPrefix| + |owner|] == '/'
    ensures m[|NotFoundPrefix| + |owner| + 1..|m| - |NotFoundSuffix|] == repositoryName
    ensures m[|m| - |NotFoundSuffix|..] == NotFoundSuffix
  {
    NotFoundPrefix + owner + "/" + repositoryName + NotFoundSuffix
  }
}
