/**
 * `GithubRepositoryService`: a read-through cache in front of the
 * GitHub repositories API. A lookup validates its arguments, looks the
 * composite key `<owner>/<name>` up in the store and, on a miss, asks
 * the remote API, stamps the key into the fetched record, saves it and
 * returns it.
 *
 * The pure half (key, validation, the mapping of an exchange to an
 * outcome, and `Lookup`, the whole call as a function of the store) is
 * the specification of the class at the end, whose methods change the
 * store and count the remote calls.
 */
module Service {
  import opened Wrappers
  import opened Entity
  import opened Exceptions
  import opened Repo

  /** `HttpStatus.OK`. */
  const HttpOk: int := 200

  const InvalidNamesMessage: string := "Owner and repository name must not be null or empty"
  const FetchFailedMessage: string := "Failed to fetch repository details"

  /** What one `restTemplate.exchange` GET did. */
  datatype Exchange =
      /** It returned a response with this status code and decoded body. */
    | Response(status: int, body: Option<Github>)
      /** It threw `HttpClientErrorException.NotFound` (the remote said 404). */
    | NotFound
      /** It threw any other `RestClientException`. */
    | ClientError
      /** It threw some other unchecked exception, which nothing catches. */
    | Unchecked(message: string)

  /**
   * The HTTP client, as the answer it gives for the URI variables
   * `owner` and `repositoryName`.
   */
  type RestTemplate = (string, string) -> Exchange

  /** How a Java call ends: it returns a possibly-null record or throws. */
  datatype Outcome = Returned(value: Option<Github>) | Thrown(exception: Exception)

  /** `s == null || s.isEmpty()`. */
  predicate NullOrEmpty(s: Option<string>) {
    s.None? || |s.value| == 0
  }

  /** The arguments both public and remote lookups accept. */
  predicate ValidNames(owner: Option<string>, repositoryName: Option<string>) {
    !NullOrEmpty(owner) && !NullOrEmpty(repositoryName)
  }

  /** `String.format("%s/%s", owner, repositoryName)`: the store key. */
  function RepositoryId(owner: string, repositoryName: string): (key: string)
    ensures |key| == |owner| + 1 + |repositoryName|
    ensures key[..|owner|] == owner
    ensures key[|owner|] == '/'
    ensures key[|owner| + 1..] == repositoryName
  {
    owner + "/" + repositoryName
  }

  /**
   * Distinct repositories get distinct keys, provided owners hold no
   * slash (the only place a slash can be ambiguous). Without that
   * proviso `a/b` + `c` and `a` + `b/c` share a key.
   */
  lemma {:induction false} RepositoryIdInjective(owner1: string, name1: string, owner2: string, name2: string)
    requires '/' !in owner1 && '/' !in owner2
    requires RepositoryId(owner1, name1) == RepositoryId(owner2, name2)
    ensures owner1 == owner2 && name1 == name2
  {
  }

  /**
   * The `try` block and its two `catch` clauses of
   * `fetchRepositoryDetailsFromGithub`: what the caller sees for each
   * thing the client can do. A 200 response yields its body (possibly
   * null); any other status that was not thrown is a failure; a 404
   * becomes `RepositoryNotFoundException`; any other client error becomes
   * a `RuntimeException` with the same not-found text; any other
   * exception passes through.
   */
  function Translate(owner: string, repositoryName: string, response: Exchange): (r: Outcome)
  {
    match response
    case Response(status, body) =>
      if status == HttpOk then Returned(body) else Thrown(RuntimeException(FetchFailedMessage))
    case NotFound =>
      Thrown(RepositoryNotFoundException(NotFoundMessage(owner, repositoryName)))
    case ClientError =>
      Thrown(RuntimeException(NotFoundMessage(owner, repositoryName)))
    case Unchecked(message) =>
      Thrown(RuntimeException(message))
  }

  /**
   * `fetchRepositoryDetailsFromGithub`: repeat the argument check, then
   * ask the remote once and translate what it did.
   */
  function FetchOutcome(owner: Option<string>, repositoryName: Option<string>, restTemplate: RestTemplate): (r: Outcome)
    ensures r.Returned? ==> ValidNames(owner, repositoryName)
    ensures r == Thrown(IllegalArgumentException(InvalidNamesMessage)) <== !ValidNames(owner, repositoryName)
  {
    if !ValidNames(owner, repositoryName) then
      Thrown(IllegalArgumentException(InvalidNamesMessage))
    else
      Translate(owner.value, repositoryName.value, restTemplate(owner.value, repositoryName.value))
  }

  /**
   * One call's observable effect: how it ended, the store afterwards,
   * and whether it called `findById`, the remote API and `save`.
   */
  datatype Step = Step(outcome: Outcome, rows: map<string, Github>, lookedUp: bool, exchanged: bool, saved: bool)

  /**
   * `fetchAndSaveRepositoryDetails`: fetch; a non-null record gets the
   * key as its id and is saved under it; whatever the fetch ended in is
   * what the call ends in.
   */
  function FetchAndSave(rows: map<string, Github>, restTemplate: RestTemplate,
                        owner: Option<string>, repositoryName: Option<string>): (s: Step)
    ensures !s.lookedUp
    ensures s.exchanged <==> ValidNames(owner, repositoryName)
    ensures s.saved ==> s.exchanged
  {
    var fetched := FetchOutcome(owner, repositoryName, restTemplate);
    if fetched.Returned? && fetched.value.Some? then
      var key := RepositoryId(owner.value, repositoryName.value);
      var stamped := SetId(fetched.value.value, Some(key));
      Step(Returned(Some(stamped)), rows[key := stamped], false, true, true)
    else
      Step(fetched, rows, false, ValidNames(owner, repositoryName), false)
  }

  /**
   * `getRepositoryDetails` as a function of the store's rows: reject null
   * or empty arguments before touching anything, return a stored row
   * unchanged, and otherwise fetch and save.
   */
  function Lookup(rows: map<string, Github>, restTemplate: RestTemplate,
                  owner: Option<string>, repositoryName: Option<string>): (s: Step)
    // rows already stored are never replaced or removed
    ensures rows.Keys <= s.rows.Keys
    ensures forall k :: k in rows ==> s.rows[k] == rows[k]
    // at most the requested key is added, and only by a save
    ensures s.rows != rows <==> s.saved
    ensures s.saved ==> ValidNames(owner, repositoryName) &&
                        s.rows.Keys == rows.Keys + {RepositoryId(owner.value, repositoryName.value)}
    // the remote is asked only after the store missed, and only once
    ensures s.exchanged ==> s.lookedUp && ValidNames(owner, repositoryName) &&
                            RepositoryId(owner.value, repositoryName.value) !in rows
    ensures s.lookedUp <==> ValidNames(owner, repositoryName)
    ensures s.saved ==> s.exchanged
  {
    if !ValidNames(owner, repositoryName) then
      Step(Thrown(IllegalArgumentException(InvalidNamesMessage)), rows, false, false, false)
    else
      var key := RepositoryId(owner.value, repositoryName.value);
      if key in rows then
        Step(Returned(Some(rows[key])), rows, true, false, false)
      else
        FetchAndSave(rows, restTemplate, owner, repositoryName).(lookedUp := true)
  }

  /** 1 for a call that happened, 0 for one that did not. */
  function Tally(happened: bool): nat {
    if happened then 1 else 0
  }

  class GithubRepositoryService {
    const githubRepository: GithubRepository
    var restTemplate: RestTemplate
    /** How many GETs reached the remote API. */
    ghost var exchangeCalls: nat

    constructor (githubRepository: GithubRepository, restTemplate: RestTemplate)
      ensures this.githubRepository == githubRepository
      ensures this.restTemplate == restTemplate
      ensures exchangeCalls == 0
    {
      this.githubRepository := githubRepository;
      this.restTemplate := restTemplate;
      exchangeCalls := 0;
    }

    method SetRestTemplate(restTemplate: RestTemplate)
      modifies this`restTemplate
      ensures this.restTemplate == restTemplate
    {
      this.restTemplate := restTemplate;
    }

    /**
     * Returns the record for `owner/repositoryName`, from the store if it
     * is there and from the remote API (then saved) if not.
     */
    method GetRepositoryDetails(owner: Option<string>, repositoryName: Option<string>) returns (r: Outcome)
      requires githubRepository.Valid()
      modifies this`exchangeCalls, githubRepository
      ensures var s := Lookup(old(githubRepository.rows), restTemplate, owner, repositoryName);
              && r == s.outcome
              && githubRepository.rows == s.rows
              && githubRepository.findByIdCalls == old(githubRepository.findByIdCalls) + Tally(s.lookedUp)
              && exchangeCalls == old(exchangeCalls) + Tally(s.exchanged)
              && githubRepository.saveCalls == old(githubRepository.saveCalls) + Tally(s.saved)
      ensures githubRepository.Valid()
      ensures r.Returned? && r.value.Some? ==>
                ValidNames(owner, repositoryName) &&
                r.value.value.id == Some(RepositoryId(owner.value, repositoryName.value))
    {
      if NullOrEmpty(owner) || NullOrEmpty(repositoryName) {
        return Thrown(IllegalArgumentException(InvalidNamesMessage));
      }
      var repositoryId := RepositoryId(owner.value, repositoryName.value);
      var found := githubRepository.FindById(repositoryId);
      if found.Some? {
        return Returned(found);
      }
      r := FetchAndSaveRepositoryDetails(owner, repositoryName);
    }

    method FetchAndSaveRepositoryDetails(owner: Option<string>, repositoryName: Option<string>) returns (r: Outcome)
      requires githubRepository.Valid()
      modifies this`exchangeCalls, githubRepository`rows, githubRepository`saveCalls
      ensures var s := FetchAndSave(old(githubRepository.rows), restTemplate, owner, repositoryName);
              && r == s.outcome
              && githubRepository.rows == s.rows
              && exchangeCalls == old(exchangeCalls) + Tally(s.exchanged)
              && githubRepository.saveCalls == old(githubRepository.saveCalls) + Tally(s.saved)
      ensures githubRepository.Valid()
    {
      r := FetchRepositoryDetailsFromGithub(owner, repositoryName);
      if r.Returned? && r.value.Some? {
        var github := SetId(r.value.value, Some(RepositoryId(owner.value, repositoryName.value)));
        var _ := githubRepository.Save(github);
        r := Returned(Some(github));
      }
    }

    method FetchRepositoryDetailsFromGithub(owner: Option<string>, repositoryName: Option<string>) returns (r: Outcome)
      modifies this`exchangeCalls
      ensures r == FetchOutcome(owner, repositoryName, restTemplate)
      ensures exchangeCalls == old(exchangeCalls) + Tally(ValidNames(owner, repositoryName))
    {
      if NullOrEmpty(owner) || NullOrEmpty(repositoryName) {
        return Thrown(IllegalArgumentException(InvalidNamesMessage));
      }
      exchangeCalls := exchangeCalls + 1;
      var response := restTemplate(owner.value, repositoryName.value);
      match response
      case Response(status, body) =>
        if status != HttpOk {
          return Thrown(RuntimeException(FetchFailedMessage));
        }
        r := Returned(body);
      case NotFound =>
        r := Thrown(RepositoryNotFoundException(NotFoundMessage(owner.value, repositoryName.value)));
      case ClientError =>
        r := Thrown(RuntimeException(NotFoundMessage(owner.value, repositoryName.value)));
      case Unchecked(message) =>
        r := Thrown(RuntimeException(message));
    }
  }
}
