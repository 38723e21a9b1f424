/** The current HTTP backend (`HttpRepository`): uploads each file with one
    POST under `remoteLocation`, through a client that authenticates when a
    credentials id is configured, and closes every response and the client
    on every exit path. */
module HttpBackend {
  import W = Wrappers
  import opened Http

  datatype Credential = UsernamePassword(username: string, password: string)

  /** The credential store, as `findCredentialById` consults it: `None` is
      the null it returns for an unknown id. */
  type CredentialLookup = string -> W.Option<Credential>

  /** The HTTP client `deploy` builds: the library default, or one that sends
      the resolved username and password and never retries a request. */
  datatype ClientConfig =
    | DefaultClient
    | AuthenticatingClient(credential: Credential, automaticRetries: bool, retryCount: nat)

  /** Jenkins' build results, from best to worst. */
  datatype BuildResult = Success | Unstable | Failure | NotBuilt | Aborted

  function Severity(result: BuildResult): (n: nat)
    ensures n < 5
  {
    match result
    case Success => 0
    case Unstable => 1
    case Failure => 2
    case NotBuilt => 3
    case Aborted => 4
  }

  /** What `Run.setResult(next)` leaves: the worse of the current and the
      new result, so a run is never made better. */
  function Worse(current: BuildResult, next: BuildResult): (r: BuildResult)
    ensures r == current || r == next
    ensures Severity(current) <= Severity(r) && Severity(next) <= Severity(r)
  {
    if Severity(next) > Severity(current) then next else current
  }

  /** The build run whose result `deploy` may set. */
  class Run {
    var result: BuildResult

    constructor (result: BuildResult)
      ensures this.result == result
    {
      this.result := result;
    }

    /** `setResult`: keeps the worse of the two results. */
    method SetResult(next: BuildResult)
      modifies this
      ensures result == Worse(old(result), next)
    {
      result := Worse(result, next);
    }
  }

  predicate HasCredentialsId(credentialsId: W.Option<string>) {
    credentialsId.Some? && credentialsId.value != ""
  }

  /** The client `deploy` creates, or the failure that happens before any
      client exists. */
  function ChooseClient(credentialsId: W.Option<string>, lookup: CredentialLookup): (r: W.Result<ClientConfig, DeployError>)
    ensures !HasCredentialsId(credentialsId) ==> r == W.Success(DefaultClient)
    ensures HasCredentialsId(credentialsId) ==>
              (r.Success? <==> lookup(credentialsId.value).Some?)
              && (r.Success? ==> r.value.AuthenticatingClient? && r.value.credential == lookup(credentialsId.value).value)
              && (r.Failure? ==> r.error == MissingCredentials(credentialsId.value))
    ensures r.Success? && r.value.AuthenticatingClient? ==> !r.value.automaticRetries && r.value.retryCount == 0
  {
    if !HasCredentialsId(credentialsId) then W.Success(DefaultClient)
    else
      match lookup(credentialsId.value)
      case None => W.Failure(MissingCredentials(credentialsId.value))
      case Some(credential) => W.Success(AuthenticatingClient(credential, false, 0))
  }

  /** Whether a `deploy` ending with `outcome` has marked the run FAILURE:
      only a received non-2xx response does. */
  predicate MarksFailure(outcome: Outcome) {
    outcome.Failed? && outcome.error.Rejected?
  }

  class HttpRepository {
    const remoteLocation: string
    const credentialsId: W.Option<string>

    /** Every URL POSTed through this repository, in order. */
    var posted: seq<string>
    /** The client the latest `deploy` created, if any. */
    var client: W.Option<ClientConfig>
    /** Clients and responses created and not yet closed. */
    var openClients: nat
    var openResponses: nat

    constructor (remoteLocation: string, credentialsId: W.Option<string>)
      ensures this.remoteLocation == NormalizeLocation(remoteLocation)
      ensures this.credentialsId == credentialsId
      ensures posted == [] && client == W.None && openClients == 0 && openResponses == 0
    {
      this.remoteLocation := NormalizeLocation(remoteLocation);
      this.credentialsId := credentialsId;
      posted := [];
      client := W.None;
      openClients := 0;
      openResponses := 0;
    }

    /** `deploy(files, run)`, with each file given by its name. */
    method Deploy(names: seq<string>, run: Run, lookup: CredentialLookup, server: Server) returns (outcome: Outcome)
      modifies this, run
      ensures ChooseClient(credentialsId, lookup).Failure? ==>
                outcome == Failed(ChooseClient(credentialsId, lookup).error)
                && posted == old(posted) && client == old(client) && run.result == old(run.result)
      ensures ChooseClient(credentialsId, lookup).Success? ==>
                client == W.Some(ChooseClient(credentialsId, lookup).value)
                && posted == old(posted) + Upload(remoteLocation, names, server).posted
                && outcome == Upload(remoteLocation, names, server).outcome
                && run.result == (if MarksFailure(outcome) then Worse(old(run.result), Failure) else old(run.result))
      ensures openClients == old(openClients) && openResponses == old(openResponses)
    {
      var chosen := ChooseClient(credentialsId, lookup);
      if chosen.Failure? {
        // thrown while building the client: nothing is open yet
        return Failed(chosen.error);
      }
      client := W.Some(chosen.value);
      openClients := openClients + 1;

      ghost var k := FirstRefusal(|names|, server, 0);
      var i := 0;
      while i < |names|
        invariant i <= k
        invariant forall j :: 0 <= j < i ==> Accepted(server(j))
        invariant posted == old(posted) + PostUrls(remoteLocation, names[..i])
        invariant client == W.Some(chosen.value)
        invariant openClients == old(openClients) + 1
        invariant openResponses == old(openResponses)
        invariant run.result == old(run.result)
      {
        var url := remoteLocation + names[i];
        posted := posted + [url];
        assert PostUrls(remoteLocation, names[..i]) + [url] == PostUrls(remoteLocation, names[..i + 1]);
        var reply := server(i);
        if !Accepted(reply) {
          assert k == i;
          assert Upload(remoteLocation, names, server)
              == Exchange(PostUrls(remoteLocation, names[..i + 1]), Failed(RefusalError(reply)));
        }
        if reply.ConnectionFailed? {
          // no response to close; the outer finally closes the client
          openClients := openClients - 1;
          return Failed(TransportFailure);
        }
        openResponses := openResponses + 1;
        if !IsSuccessful(reply.status) {
          run.SetResult(Failure);
          openResponses := openResponses - 1;
          openClients := openClients - 1;
          return Failed(Rejected(reply.status));
        }
        openResponses := openResponses - 1;
        i := i + 1;
      }
      assert names[..i] == names;
      assert k == |names|;
      openClients := openClients - 1;
      return Deployed;
    }
  }
}
