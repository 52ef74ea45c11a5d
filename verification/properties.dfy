/**
 * What `getRepositoryDetails` promises, stated about `Lookup`, the
 * function that the service's methods are proved to implement: one lemma
 * per way a call can end, the store invariant, idempotence, and what a
 * whole run of requests does to the store.
 */
module ServiceProperties {
  import opened Wrappers
  import opened Entity
  import opened Exceptions
  import opened Repo
  import opened Service

  /** Null or empty arguments fail before the store or the remote is touched. */
  lemma InvalidNamesTouchNothing(rows: map<string, Github>, restTemplate: RestTemplate,
                                 owner: Option<string>, repositoryName: Option<string>)
    requires NullOrEmpty(owner) || NullOrEmpty(repositoryName)
    ensures var s := Lookup(rows, restTemplate, owner, repositoryName);
            && s.outcome == Thrown(IllegalArgumentException("Owner and repository name must not be null or empty"))
            && s.rows == rows && !s.lookedUp && !s.exchanged && !s.saved
  {
  }

  /** A stored row is returned as it is: one `findById`, no fetch, no save. */
  lemma HitReturnsStoredRow(rows: map<string, Github>, restTemplate: RestTemplate, owner: string, repositoryName: string)
    requires owner != [] && repositoryName != []
    requires owner + "/" + repositoryName in rows
    ensures var s := Lookup(rows, restTemplate, Some(owner), Some(repositoryName));
            && s.outcome == Returned(Some(rows[owner + "/" + repositoryName]))
            && s.rows == rows && s.lookedUp && !s.exchanged && !s.saved
  {
  }

  /**
   * A miss answered by 200 with a body: the body comes back with only its
   * id replaced by the key, is saved once, and the store gains exactly
   * that key.
   */
  lemma MissStoresStampedBody(rows: map<string, Github>, restTemplate: RestTemplate,
                              owner: string, repositoryName: string, body: Github)
    requires owner != [] && repositoryName != []
    requires owner + "/" + repositoryName !in rows
    requires restTemplate(owner, repositoryName) == Response(200, Some(body))
    ensures var s := Lookup(rows, restTemplate, Some(owner), Some(repositoryName));
            var key := owner + "/" + repositoryName;
            && s.outcome.Returned? && s.outcome.value.Some?
            && s.outcome.value.value.id == Some(key)
            && s.outcome.value.value.fullName == body.fullName
            && s.outcome.value.value.description == body.description
            && s.outcome.value.value.cloneUrl == body.cloneUrl
            && s.outcome.value.value.stars == body.stars
            && s.outcome.value.value.createdAt == body.createdAt
            && s.rows == rows[key := s.outcome.value.value]
            && s.lookedUp && s.exchanged && s.saved
  {
  }

  /** A miss answered by 200 with no body returns null and saves nothing. */
  lemma MissWithoutBodyReturnsNull(rows: map<string, Github>, restTemplate: RestTemplate,
                                   owner: string, repositoryName: string)
    requires owner != [] && repositoryName != []
    requires owner + "/" + repositoryName !in rows
    requires restTemplate(owner, repositoryName) == Response(200, None)
    ensures var s := Lookup(rows, restTemplate, Some(owner), Some(repositoryName));
            && s.outcome == Returned(None)
            && s.rows == rows && s.exchanged && !s.saved
  {
  }

  /** Any status other than 200 that the client did not throw for is a failure. */
  lemma MissWithOtherStatusFails(rows: map<string, Github>, restTemplate: RestTemplate,
                                 owner: string, repositoryName: string)
    requires owner != [] && repositoryName != []
    requires owner + "/" + repositoryName !in rows
    requires restTemplate(owner, repositoryName).Response? && restTemplate(owner, repositoryName).status != 200
    ensures var s := Lookup(rows, restTemplate, Some(owner), Some(repositoryName));
            && s.outcome == Thrown(RuntimeException("Failed to fetch repository details"))
            && s.rows == rows && s.exchanged && !s.saved
  {
  }

  /** A 404 from the remote is `RepositoryNotFoundException`; one GET, nothing saved. */
  lemma RemoteNotFoundIsRepositoryNotFound(rows: map<string, Github>, restTemplate: RestTemplate,
                                           owner: string, repositoryName: string)
    requires owner != [] && repositoryName != []
    requires owner + "/" + repositoryName !in rows
    requires restTemplate(owner, repositoryName) == NotFound
    ensures var s := Lookup(rows, restTemplate, Some(owner), Some(repositoryName));
            && s.outcome == Thrown(RepositoryNotFoundException("Repository '" + owner + "/" + repositoryName + "' not found"))
            && s.rows == rows && s.lookedUp && s.exchanged && !s.saved
  {
  }

  /** Any other client error is a plain `RuntimeException` with the same not-found text. */
  lemma RemoteClientErrorReusesNotFoundText(rows: map<string, Github>, restTemplate: RestTemplate,
                                            owner: string, repositoryName: string)
    requires owner != [] && repositoryName != []
    requires owner + "/" + repositoryName !in rows
    requires restTemplate(owner, repositoryName) == ClientError
    ensures var s := Lookup(rows, restTemplate, Some(owner), Some(repositoryName));
            && s.outcome == Thrown(RuntimeException("Repository '" + owner + "/" + repositoryName + "' not found"))
            && s.rows == rows && s.exchanged && !s.saved
  {
  }

  /** Any other unchecked exception from the client propagates unchanged. */
  lemma UncheckedExceptionPropagates(rows: map<string, Github>, restTemplate: RestTemplate,
                                     owner: string, repositoryName: string, message: string)
    requires owner != [] && repositoryName != []
    requires owner + "/" + repositoryName !in rows
    requires restTemplate(owner, repositoryName) == Unchecked(message)
    ensures var s := Lookup(rows, restTemplate, Some(owner), Some(repositoryName));
            && s.outcome == Thrown(RuntimeException(message))
            && s.rows == rows && s.exchanged && !s.saved
  {
  }

  /**
   * The argument check inside the fetch can never fire when the fetch is
   * reached through `getRepositoryDetails`: with arguments that passed the
   * first check, the fetch is exactly the translation of the remote's
   * answer, and a miss in the store ends exactly as that translation does.
   */
  lemma DuplicateCheckUnreachable(rows: map<string, Github>, restTemplate: RestTemplate,
                                  owner: Option<string>, repositoryName: Option<string>)
    requires ValidNames(owner, repositoryName)
    ensures FetchOutcome(owner, repositoryName, restTemplate) ==
            Translate(owner.value, repositoryName.value, restTemplate(owner.value, repositoryName.value))
    ensures RepositoryId(owner.value, repositoryName.value) !in rows &&
            !Lookup(rows, restTemplate, owner, repositoryName).saved ==>
              Lookup(rows, restTemplate, owner, repositoryName).outcome ==
              Translate(owner.value, repositoryName.value, restTemplate(owner.value, repositoryName.value))
  {
  }

  /**
   * `fetchRepositoryDetailsFromGithub` called directly with a non-empty
   * owner and name: one clause per thing the client can do.
   */
  lemma FetchOutcomeByExchange(owner: string, repositoryName: string, restTemplate: RestTemplate)
    requires owner != [] && repositoryName != []
    ensures var r := FetchOutcome(Some(owner), Some(repositoryName), restTemplate);
            var response := restTemplate(owner, repositoryName);
            && (response.Response? && response.status == 200 ==> r == Returned(response.body))
            && (response.Response? && response.status != 200 ==>
                  r == Thrown(RuntimeException("Failed to fetch repository details")))
            && (response.NotFound? ==>
                  r == Thrown(RepositoryNotFoundException("Repository '" + owner + "/" + repositoryName + "' not found")))
            && (response.ClientError? ==>
                  r == Thrown(RuntimeException("Repository '" + owner + "/" + repositoryName + "' not found")))
            && (response.Unchecked? ==> r == Thrown(RuntimeException(response.message)))
  {
  }

  /** Only a 404 from the remote ends the fetch in `RepositoryNotFoundException`. */
  lemma RepositoryNotFoundOnlyFromRemote404(owner: Option<string>, repositoryName: Option<string>, restTemplate: RestTemplate)
    ensures var r := FetchOutcome(owner, repositoryName, restTemplate);
            r.Thrown? && r.exception.RepositoryNotFoundException? <==>
              ValidNames(owner, repositoryName) && restTemplate(owner.value, repositoryName.value).NotFound?
  {
  }

  /**
   * Either the whole flow succeeds, and the record is both saved and
   * returned, or the store is left as it was: no partial writes.
   */
  lemma SaveOnlyWithReturnedRecord(rows: map<string, Github>, restTemplate: RestTemplate,
                                   owner: Option<string>, repositoryName: Option<string>)
    ensures var s := Lookup(rows, restTemplate, owner, repositoryName);
            s.saved <==> (s.outcome.Returned? && s.outcome.value.Some? && s.exchanged)
    ensures var s := Lookup(rows, restTemplate, owner, repositoryName);
            s.saved ==> s.rows == rows[s.outcome.value.value.id.value := s.outcome.value.value]
  {
  }

  /** A store whose rows sit under their own ids stays that way. */
  lemma LookupKeepsKeyedById(rows: map<string, Github>, restTemplate: RestTemplate,
                             owner: Option<string>, repositoryName: Option<string>)
    requires KeyedById(rows)
    ensures KeyedById(Lookup(rows, restTemplate, owner, repositoryName).rows)
  {
  }

  /** Over such a store, every record returned carries the requested key as its id. */
  lemma ReturnedRecordHasRequestedId(rows: map<string, Github>, restTemplate: RestTemplate,
                                     owner: Option<string>, repositoryName: Option<string>)
    requires KeyedById(rows)
    ensures var s := Lookup(rows, restTemplate, owner, repositoryName);
            s.outcome.Returned? && s.outcome.value.Some? ==>
              ValidNames(owner, repositoryName) &&
              s.outcome.value.value.id == Some(RepositoryId(owner.value, repositoryName.value))
  {
  }

  /**
   * After a call that fetched and saved, the same call again returns the
   * saved record from the store, whatever the remote would now say, with
   * no fetch and no save.
   */
  lemma RepeatAfterSaveIsHit(rows: map<string, Github>, restTemplate: RestTemplate, later: RestTemplate,
                             owner: Option<string>, repositoryName: Option<string>)
    requires Lookup(rows, restTemplate, owner, repositoryName).saved
    ensures var first := Lookup(rows, restTemplate, owner, repositoryName);
            var again := Lookup(first.rows, later, owner, repositoryName);
            && again.outcome == first.outcome
            && again.rows == first.rows
            && !again.exchanged && !again.saved
  {
  }

  /**
   * The not-found text names exactly one repository: two texts are equal
   * only for the same owner and name (owners never hold a slash).
   */
  lemma NotFoundMessageIdentifiesRepository(owner1: string, name1: string, owner2: string, name2: string)
    requires '/' !in owner1 && '/' !in owner2
    requires NotFoundMessage(owner1, name1) == NotFoundMessage(owner2, name2)
    ensures owner1 == owner2 && name1 == name2
  {
  }

  /** One request the service is asked to serve. */
  datatype Request = Request(owner: Option<string>, repositoryName: Option<string>)

  /** The store after a run of requests, and how many saves the run made. */
  datatype Run = Run(rows: map<string, Github>, saves: nat)

  /**
   * Serves the requests in order against one store and one remote. Rows
   * present at the start are never replaced or removed, and every save
   * adds a key that was not there: the run saves exactly as many times as
   * the store gained rows.
   */
  function Serve(rows: map<string, Github>, restTemplate: RestTemplate, requests: seq<Request>): (r: Run)
    ensures rows.Keys <= r.rows.Keys
    ensures forall k :: k in rows ==> r.rows[k] == rows[k]
    ensures r.saves == |r.rows.Keys| - |rows.Keys|
    decreases |requests|
  {
    if requests == [] then
      Run(rows, 0)
    else
      var s := Lookup(rows, restTemplate, requests[0].owner, requests[0].repositoryName);
      var rest := Serve(s.rows, restTemplate, requests[1..]);
      Run(rest.rows, rest.saves + Tally(s.saved))
  }

  /** A run over a store keyed by id leaves it keyed by id: no two rows share an id. */
  lemma {:induction false} ServeKeepsKeyedById(rows: map<string, Github>, restTemplate: RestTemplate, requests: seq<Request>)
    requires KeyedById(rows)
    ensures KeyedById(Serve(rows, restTemplate, requests).rows)
    decreases |requests|
  {
    if requests != [] {
      var s := Lookup(rows, restTemplate, requests[0].owner, requests[0].repositoryName);
      LookupKeepsKeyedById(rows, restTemplate, requests[0].owner, requests[0].repositoryName);
      ServeKeepsKeyedById(s.rows, restTemplate, requests[1..]);
    }
  }

  /**
   * Once a request has been saved, repeating it any number of times
   * returns the same record with no fetch and no save.
   */
  lemma {:induction false} RepeatsAreHits(rows: map<string, Github>, restTemplate: RestTemplate,
                                          request: Request, n: nat)
    requires Lookup(rows, restTemplate, request.owner, request.repositoryName).saved
    ensures var first := Lookup(rows, restTemplate, request.owner, request.repositoryName);
            Serve(first.rows, restTemplate, seq(n, _ => request)) == Run(first.rows, 0)
    decreases n
  {
    var first := Lookup(rows, restTemplate, request.owner, request.repositoryName);
    if n > 0 {
      RepeatAfterSaveIsHit(rows, restTemplate, restTemplate, request.owner, request.repositoryName);
      RepeatsAreHits(rows, restTemplate, request, n - 1);
      assert seq(n, _ => request)[1..] == seq(n - 1, _ => request);
    }
  }

  /**
   * The unit test for a store miss replayed against the service class: an
   * empty store and a remote that answers 200 with a blank record. The
   * record comes back (not null) stamped with the key, after one
   * `findById` and one `save`.
   */
  method FetchOnMissScenario()
  {
    var store := new GithubRepository(map[]);
    var service := new GithubRepositoryService(store, (o, n) => Response(200, Some(Blank)));
    assert RepositoryId("prpundge", "testRepository") == "prpundge/testRepository";
    var r := service.GetRepositoryDetails(Some("prpundge"), Some("testRepository"));
    assert r == Returned(Some(Blank.(id := Some("prpundge/testRepository"))));
    assert store.findByIdCalls == 1 && store.saveCalls == 1 && service.exchangeCalls == 1;
  }

  /**
   * Continuing past that unit test: after the miss has been saved, asking
   * again is served from the store, even though the remote now answers 404.
   */
  method SecondCallIsHitScenario()
  {
    var store := new GithubRepository(map[]);
    var service := new GithubRepositoryService(store, (o, n) => Response(200, Some(Blank)));
    assert RepositoryId("prpundge", "testRepository") == "prpundge/testRepository";
    var r := service.GetRepositoryDetails(Some("prpundge"), Some("testRepository"));
    service.SetRestTemplate((o, n) => NotFound);
    var again := service.GetRepositoryDetails(Some("prpundge"), Some("testRepository"));
    assert again == r;
    assert store.findByIdCalls == 2 && store.saveCalls == 1 && service.exchangeCalls == 1;
  }

  /**
   * The unit test for a store hit: a row stored under
   * `prpundge/testRepository` is returned as it is, with one `findById`,
   * no save and no GET.
   */
  method StoreHitScenario()
  {
    var stored := Blank.(id := Some("prpundge/testRepository"));
    var store := new GithubRepository(map["prpundge/testRepository" := stored]);
    var service := new GithubRepositoryService(store, (o, n) => ClientError);
    assert RepositoryId("prpundge", "testRepository") == "prpundge/testRepository";
    var r := service.GetRepositoryDetails(Some("prpundge"), Some("testRepository"));
    assert r == Returned(Some(stored));
    assert store.findByIdCalls == 1 && store.saveCalls == 0 && service.exchangeCalls == 0;
  }

  /** The message text the unit test for a missing repository expects. */
  lemma AngularPracticeMessage()
    ensures NotFoundMessage("prpundge", "Angular_Practice") == "Repository 'prpundge/Angular_Practice' not found"
  {
  }

  /**
   * The unit test for a repository missing on GitHub. It throws the base
   * class `HttpClientErrorException` with status 404, which is the
   * generic client-error branch: a `RuntimeException` with the not-found
   * text, after one GET, with nothing saved.
   */
  method RemoteMissingScenario()
  {
    var store := new GithubRepository(map[]);
    var service := new GithubRepositoryService(store, (o, n) => ClientError);
    AngularPracticeMessage();
    var r := service.GetRepositoryDetails(Some("prpundge"), Some("Angular_Practice"));
    assert r == Thrown(RuntimeException("Repository 'prpundge/Angular_Practice' not found"));
    assert store.findByIdCalls == 1 && service.exchangeCalls == 1 && store.saveCalls == 0;
  }

  /**
   * The same request when the client throws the `NotFound` subclass, as
   * the HTTP client's default error handler does for a 404 answer: the
   * same text, now in a `RepositoryNotFoundException`.
   */
  method RemoteNotFoundSubclassScenario()
  {
    var store := new GithubRepository(map[]);
    var service := new GithubRepositoryService(store, (o, n) => NotFound);
    AngularPracticeMessage();
    var r := service.GetRepositoryDetails(Some("prpundge"), Some("Angular_Practice"));
    assert r == Thrown(RepositoryNotFoundException("Repository 'prpundge/Angular_Practice' not found"));
    assert store.findByIdCalls == 1 && service.exchangeCalls == 1 && store.saveCalls == 0;
  }

  /** The unit test for null arguments: the store is never consulted. */
  method InvalidArgumentsScenario()
  {
    var store := new GithubRepository(map[]);
    var service := new GithubRepositoryService(store, (o, n) => ClientError);
    var r := service.GetRepositoryDetails(None, None);
    assert r == Thrown(IllegalArgumentException("Owner and repository name must not be null or empty"));
    assert store.findByIdCalls == 0 && service.exchangeCalls == 0 && store.saveCalls == 0;
  }
}
