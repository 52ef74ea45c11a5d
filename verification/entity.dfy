/**
 * The persisted repository record (`Github` in the `module` package).
 * Lombok's `@Data` gives it value equality, so it is a datatype here;
 * the setter the service calls becomes a record update.
 */
module Entity {
  import opened Wrappers

  /** Java's 32-bit `int`, the type of the star count. */
  newtype int32 = x: int | -0x8000_0000 <= x < 0x8000_0000

  /** A `LocalDateTime`, carried along and never inspected. */
  datatype Timestamp = Timestamp(ticks: int)

  /**
   * One row of the store. Every reference field may be `null`;
   * `id` is the primary key, the others are filled from the remote
   * API's `full_name`, `description`, `clone_url`,
   * `stargazers_count` and `created_at`.
   */
  datatype Github = Github(
    id: Option<string>,
    fullName: Option<string>,
    description: Option<string>,
    cloneUrl: Option<string>,
    stars: int32,
    createdAt: Option<Timestamp>)

  /** `new Github()`: every reference null, no stars. */
  const Blank: Github := Github(None, None, None, None, 0, None)

  /** `setId`: the id is replaced and every other field is kept. */
  function SetId(g: Github, id: Option<string>): (r: Github)
    ensures r.id == id
    ensures r.fullName == g.fullName && r.description == g.description
    ensures r.cloneUrl == g.cloneUrl && r.stars == g.stars && r.createdAt == g.createdAt
  {
    g.(id := id)
  }
}
