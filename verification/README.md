# githubExplorer: the read-through repository cache

githubExplorer serves `GET /repositories/{owner}/{repositoryName}`. The
work is done by `GithubRepositoryService.getRepositoryDetails`, which is a
read-through (cache-aside) lookup:

1. Reject a null or empty owner or name with `IllegalArgumentException`.
2. Look the key `<owner>/<name>` up in the persistent store.
3. On a hit, return the stored row.
4. On a miss, make one GET against the GitHub repositories API and
   translate the answer:
   - a 200 body is stamped with the key as its id, saved, and returned;
   - a 200 with no body returns null;
   - any other status is a failure;
   - a 404 is `RepositoryNotFoundException`;
   - any other client error is a `RuntimeException`.

This project models that flow in Dafny and proves what each kind of call
does to its result, to the store, and to the number of store and remote
calls.

Layout:

- `wrappers.dfy` (`Wrappers`): `Option`, which stands for a Java reference that may be `null`.
- `entity.dfy` (`Entity`): the `Github` record. It is a datatype because Lombok's `@Data` gives it value equality. The star count is Java's 32-bit `int`. `createdAt` is a value the model never inspects.
- `exceptions.dfy` (`Exceptions`): the three exception classes a call can end in, and the text `Repository '<owner>/<name>' not found`.
- `repo.dfy` (`Repo`): the store, a class over `rows: map<string, Github>`. It has `FindById` and `Save`, and ghost counters for how often each is called.
- `service.dfy` (`Service`): the pure half of the service:
  - the key (`RepositoryId`) and argument validation (`ValidNames`);
  - the mapping of one HTTP exchange to an outcome (`Translate`, the `try`/`catch` part, and `FetchOutcome`, which checks the arguments first);
  - the whole call as a function of the store (`FetchAndSave`, `Lookup`).

  It also holds the class `GithubRepositoryService`. Its three methods follow the Java code step by step and are proved to implement `Lookup` exactly: the outcome, the new rows, and the `findById`, exchange and `save` counts.
- `properties.dfy` (`ServiceProperties`):
  - one lemma per way a call can end;
  - the store invariant that every row is stored under its own id;
  - the fact that the argument check inside the fetch can never fire;
  - idempotence;
  - `Serve`, a run of many requests against one store, with what such a run does to the store;
  - the service unit tests replayed against the class, with their own inputs: null arguments, a store hit, a miss that fetches and saves, and the remote-missing test;
  - two runs beyond those tests: a second call after a save, which is a store hit, and the remote-missing request when the client throws the `NotFound` subclass.

The remote API is the field `restTemplate`, of type
`(string, string) -> Exchange`. It gives the outcome of a GET for the URI
variables `owner` and `repositoryName`. An `Exchange` is one of:

- a response with a status and a possibly-null body;
- a thrown `HttpClientErrorException.NotFound`;
- any other thrown `RestClientException`;
- any other unchecked exception.

As in the source, `SetRestTemplate` replaces the client. An exception is
returned as the value `Thrown(e)`, and a normal return as `Returned(v)`.

Points where the code decides something that is easy to misread:

- The status is compared against 200 exactly (`src/main/java/com/github/explorer/service/GithubRepositoryService.java:86`), not against the
  2xx range. So a 201 or a 204 that the client did not throw for is a
  failure ("Failed to fetch repository details").
- Nothing in the code keeps the star count non-negative, so `stars` is any
  32-bit `int`.
- The unit test for a remote 404
  (`src/test/java/com/github/explorer/service/GithubRepositoryServiceTest.java:121`)
  throws `new HttpClientErrorException(HttpStatus.NOT_FOUND)`. That is not
  the `NotFound` subclass, so it goes through the generic
  `RestClientException` branch (`src/main/java/com/github/explorer/service/GithubRepositoryService.java:94-96`). Both branches produce the
  same text, so the test cannot tell them apart. The model keeps the two
  branches apart: `RemoteNotFoundIsRepositoryNotFound` and
  `RemoteClientErrorReusesNotFoundText` differ only in the exception class.
  `RemoteMissingScenario` replays the test as written, through the generic
  branch. `RemoteNotFoundSubclassScenario` shows what the subclass gives.
- The key `owner + "/" + name` is injective only when owners contain no
  slash (`RepositoryIdInjective`, `NotFoundMessageIdentifiesRepository`).
  Without that, `a/b` with `c` and `a` with `b/c` share the key `a/b/c`.
  The controller route `/{owner}/{repositoryName}` cannot bind a slash
  into either variable, so no request reaches the service with such an
  owner.

## Model

| member | source | states |
|---|---|---|
| Entity.SetId | src/main/java/com/github/explorer/service/GithubRepositoryService.java:59 | `setId` replaces the id and keeps `fullName`, `description`, `cloneUrl`, `stars` and `createdAt` |
| Exceptions.NotFoundMessage | src/main/java/com/github/explorer/exception/RepositoryNotFoundException.java:5 | the text is `Repository '` followed by owner, `/` and name, then `' not found`; each part sits at a known position |
| ServiceProperties.NotFoundMessageIdentifiesRepository | src/main/java/com/github/explorer/exception/RepositoryNotFoundException.java:5 | two not-found texts are equal only for the same owner and name (owners without a slash) |
| ServiceProperties.AngularPracticeMessage | src/test/java/com/github/explorer/service/GithubRepositoryServiceTest.java:123-125 | the text for `prpundge`/`Angular_Practice` is exactly the message the unit test expects |
| Repo.GithubRepository.constructor | src/main/java/com/github/explorer/repo/GithubRepository.java:8 | a store holding the given rows, each under its own id as a table keyed by `@Id` requires, with no calls made yet |
| Repo.GithubRepository.FindById | src/main/java/com/github/explorer/repo/GithubRepository.java:8 | `findById` returns the row under the key if and only if there is one, changes no row, and counts one call |
| Repo.GithubRepository.Save | src/main/java/com/github/explorer/repo/GithubRepository.java:8 | `save` puts the entity under its own id and leaves every other row alone. It counts one call, returns the entity, and keeps the table keyed by id |
| Service.RepositoryId | src/main/java/com/github/explorer/service/GithubRepositoryService.java:51 | the key is the owner, then `/`, then the name: owner and name can be read back from it |
| Service.RepositoryIdInjective | src/main/java/com/github/explorer/service/GithubRepositoryService.java:51 | different (owner, name) pairs give different keys when owners contain no slash |
| Service.FetchOutcome | src/main/java/com/github/explorer/service/GithubRepositoryService.java:72-98 | the fetch returns a value only for valid arguments. Invalid arguments always throw `IllegalArgumentException` with the fixed message |
| Service.FetchAndSave | src/main/java/com/github/explorer/service/GithubRepositoryService.java:56-63 | the remote is asked if and only if the arguments are valid; a save happens only after a fetch; `findById` is not called |
| Service.Lookup | src/main/java/com/github/explorer/service/GithubRepositoryService.java:46-54 | stored rows are never replaced or removed. The store changes if and only if a save happens, and then it gains exactly the requested key. The remote is asked only after valid arguments missed in the store. `findById` is called if and only if the arguments are valid |
| Service.GithubRepositoryService.constructor | src/main/java/com/github/explorer/service/GithubRepositoryService.java:29-32 | a service over the given store and HTTP client, with no remote calls yet |
| Service.GithubRepositoryService.SetRestTemplate | src/main/java/com/github/explorer/service/GithubRepositoryService.java:35-37 | replaces the HTTP client |
| Service.GithubRepositoryService.GetRepositoryDetails | src/main/java/com/github/explorer/service/GithubRepositoryService.java:46-54 | the outcome, the new rows and the `findById`, exchange and `save` counts are exactly those of `Lookup`. The store stays keyed by id, and every non-null record returned has id `owner/name` |
| Service.GithubRepositoryService.FetchAndSaveRepositoryDetails | src/main/java/com/github/explorer/service/GithubRepositoryService.java:56-63 | the outcome, the new rows and the exchange and `save` counts are exactly those of `FetchAndSave`; the store stays keyed by id |
| Service.GithubRepositoryService.FetchRepositoryDetailsFromGithub | src/main/java/com/github/explorer/service/GithubRepositoryService.java:72-98 | returns `FetchOutcome` and makes exactly one GET when the arguments are valid, none otherwise |
| ServiceProperties.InvalidNamesTouchNothing | src/main/java/com/github/explorer/service/GithubRepositoryService.java:47-49 | null or empty owner or name throws `IllegalArgumentException` "Owner and repository name must not be null or empty", with no `findById`, no GET and no save |
| ServiceProperties.HitReturnsStoredRow | src/main/java/com/github/explorer/service/GithubRepositoryService.java:51-53 | on a store hit the stored row is returned unchanged, with one `findById`, no GET, no save and the store unchanged |
| ServiceProperties.MissStoresStampedBody | src/main/java/com/github/explorer/service/GithubRepositoryService.java:56-63 | a miss answered by 200 with a body returns that body with only its id set to `owner/name`. It saves once, and the new store is the old one plus exactly that key |
| ServiceProperties.MissWithoutBodyReturnsNull | src/main/java/com/github/explorer/service/GithubRepositoryService.java:86-90 | a miss answered by 200 with no body returns null and saves nothing |
| ServiceProperties.MissWithOtherStatusFails | src/main/java/com/github/explorer/service/GithubRepositoryService.java:86-89 | a miss answered by any status other than 200 throws `RuntimeException` "Failed to fetch repository details" and saves nothing |
| ServiceProperties.RemoteNotFoundIsRepositoryNotFound | src/main/java/com/github/explorer/service/GithubRepositoryService.java:91-93 | a miss answered by a 404 throws `RepositoryNotFoundException` "Repository '<owner>/<name>' not found" after exactly one GET, and saves nothing |
| ServiceProperties.RemoteClientErrorReusesNotFoundText | src/main/java/com/github/explorer/service/GithubRepositoryService.java:94-96 | a miss answered by any other client error throws `RuntimeException` with the same not-found text and saves nothing |
| ServiceProperties.UncheckedExceptionPropagates | src/main/java/com/github/explorer/service/GithubRepositoryService.java:83-85 | any other exception from the client passes through uncaught with its message and nothing is saved |
| ServiceProperties.DuplicateCheckUnreachable | src/main/java/com/github/explorer/service/GithubRepositoryService.java:74-76 | with arguments that passed the first check, the fetch is exactly the translation of the remote's answer, so the second check is skipped. An unsaved miss ends exactly as that translation |
| ServiceProperties.FetchOutcomeByExchange | src/main/java/com/github/explorer/service/GithubRepositoryService.java:83-97 | called directly with a non-empty owner and name, the fetch returns the body for 200. Any other status is "Failed to fetch repository details". The `NotFound` subclass is `RepositoryNotFoundException` and any other client error a `RuntimeException`, both with the not-found text. Any other exception passes through |
| ServiceProperties.RepositoryNotFoundOnlyFromRemote404 | src/main/java/com/github/explorer/service/GithubRepositoryService.java:91-93 | the fetch ends in `RepositoryNotFoundException` if and only if the arguments are valid and the client threw the `NotFound` subclass |
| ServiceProperties.SaveOnlyWithReturnedRecord | src/main/java/com/github/explorer/service/GithubRepositoryService.java:58-62 | a save happens if and only if a fetched record is returned, and the saved row is the returned record under its id |
| ServiceProperties.LookupKeepsKeyedById | src/main/java/com/github/explorer/service/GithubRepositoryService.java:59-60 | if every row is stored under its own id before a call, the same holds after it |
| ServiceProperties.ReturnedRecordHasRequestedId | src/main/java/com/github/explorer/service/GithubRepositoryService.java:51-60 | over such a store every non-null record returned has id `owner/name` |
| ServiceProperties.RepeatAfterSaveIsHit | src/main/java/com/github/explorer/service/GithubRepositoryService.java:52-53 | after a call that saved, the same call returns the same record, makes no GET and no save, and leaves the store unchanged, whatever the remote would now answer |
| ServiceProperties.Serve | src/main/java/com/github/explorer/service/GithubRepositoryService.java:52-60 | over any run of requests, rows present at the start are never replaced or removed, and the number of saves equals the number of rows gained |
| ServiceProperties.ServeKeepsKeyedById | src/main/java/com/github/explorer/service/GithubRepositoryService.java:59-60 | over any run of requests every row stays under its own id, so no two rows share an id |
| ServiceProperties.RepeatsAreHits | src/main/java/com/github/explorer/service/GithubRepositoryService.java:52-53 | after a call that saved, repeating it any number of times leaves the store unchanged and makes no save |

## Left out

- The HTTP exchange itself is not modelled: `RestTemplate`, expanding the URL template, and decoding the JSON into a `Github` (including the `@JsonProperty` field names). The client is an `Exchange`-valued function of owner and name.
- The remote is assumed to give the same answer for the same owner and name over a run. The real API may answer differently over time.
- JPA persistence internals are not modelled; the store is a map with `findById` and `save`.
- `LocalDateTime` is an opaque `Timestamp`; it is never parsed.
- Logging is not modelled.
- The controller is not modelled. It is framework routing, and its only decision is a null record to 404 and a non-null one to 200.
- Concurrent misses for the same key are not modelled. The source has no synchronisation, so two concurrent misses would both fetch and the last write would win.
- Object identity is not modelled. In Java, `setId` changes the fetched object in place and that same object is returned. Here the record is a value, so only its contents are modelled, not aliasing.
- Service.FetchOutcome: an exception from the client that is not a `RestClientException` is modelled as a `RuntimeException` carrying its message. Its actual class is not kept.
- A star count that does not fit in a Java `int` is a JSON decoding error inside the client. It is covered only as one of the client's exceptions.
