/** What both HTTP backends share: the location normalisation of their
    constructors, the reply classes of section 15.3 of RFC 9110, and the
    fail-fast upload sequence their `deploy` loops perform. */
module Http {
  import opened Strings

  /** What the endpoint does with one POST: answer with a status code, or
      fail at the transport level (`client.execute` throws and no response
      object exists). */
  datatype Reply = Answered(status: int) | ConnectionFailed

  /** The remote endpoint as seen by one `deploy` call: its reply to the
      k-th POST of that call. */
  type Server = nat -> Reply

  /** The 2xx (Successful) class of section 15.3 of RFC 9110: the status
      codes whose first digit is 2. */
  predicate IsSuccessful(status: int): (b: bool)
    ensures b <==> status / 100 == 2
  {
    200 <= status < 300
  }

  predicate Accepted(reply: Reply) {
    reply.Answered? && IsSuccessful(reply.status)
  }

  /** Why a `deploy` call ends exceptionally. `Rejected` is the
      `IOException` carrying a non-2xx status line, `TransportFailure` one
      thrown by the client itself, `MissingCredentials` the null pointer
      dereferenced when the credentials id resolves to nothing. */
  datatype DeployError = Rejected(status: int) | TransportFailure | MissingCredentials(id: string)

  datatype Outcome = Deployed | Failed(error: DeployError)

  /** The constructors' normalisation of `remoteLocation`. */
  function NormalizeLocation(location: string): (r: string)
    ensures EndsWithSlash(r)
    ensures location <= r && |r| <= |location| + 1
    ensures EndsWithSlash(location) ==> r == location
  {
    if EndsWithSlash(location) then location else location + "/"
  }

  /** The URL each file is POSTed to: the location followed by the name. */
  function PostUrls(location: string, names: seq<string>): (urls: seq<string>)
    ensures |urls| == |names|
    ensures forall i :: 0 <= i < |urls| ==>
              location <= urls[i] && IsSuffix(names[i], urls[i]) && |urls[i]| == |location| + |names[i]|
  {
    seq(|names|, i requires 0 <= i < |names| => location + names[i])
  }

  /** Index of the first POST, at or after `from`, whose reply is not a
      2xx response; `n` when all of them are. */
  function FirstRefusal(n: nat, server: Server, from: nat): (k: nat)
    requires from <= n
    ensures from <= k <= n
    ensures forall j :: from <= j < k ==> Accepted(server(j))
    ensures k < n ==> !Accepted(server(k))
    decreases n - from
  {
    if from == n || !Accepted(server(from)) then from else FirstRefusal(n, server, from + 1)
  }

  /** The error a refused reply is reported as. */
  function RefusalError(reply: Reply): (e: DeployError)
    ensures e.Rejected? <==> reply.Answered?
    ensures e.Rejected? ==> e.status == reply.status
  {
    match reply
    case Answered(status) => Rejected(status)
    case ConnectionFailed => TransportFailure
  }

  /** The POSTs issued and the outcome of the loop over `names`. */
  datatype Exchange = Exchange(posted: seq<string>, outcome: Outcome)

  /** The upload loop as a function: POST each name in order, stop after
      the first reply that is not a 2xx response. */
  function Upload(location: string, names: seq<string>, server: Server): (e: Exchange)
    ensures |e.posted| <= |names|
    ensures e.posted == PostUrls(location, names[..|e.posted|])
    ensures e.outcome.Deployed? <==> forall i :: 0 <= i < |names| ==> Accepted(server(i))
    ensures e.outcome.Deployed? ==> |e.posted| == |names|
    ensures e.outcome.Failed? ==>
              |e.posted| > 0
              && (forall j :: 0 <= j < |e.posted| - 1 ==> Accepted(server(j)))
              && !Accepted(server(|e.posted| - 1))
              && e.outcome.error == RefusalError(server(|e.posted| - 1))
  {
    var k := FirstRefusal(|names|, server, 0);
    if k == |names| then Exchange(PostUrls(location, names), Deployed)
    else Exchange(PostUrls(location, names[..k + 1]), Failed(RefusalError(server(k))))
  }

  /** Fail-fast: when the k-th POST is the first one refused, exactly k + 1
      POSTs are issued, k of them accepted, and no later name is POSTed. */
  lemma {:induction false} UploadStopsAtFirstRefusal(location: string, names: seq<string>, server: Server, k: nat)
    requires k < |names|
    requires forall j :: 0 <= j < k ==> Accepted(server(j))
    requires !Accepted(server(k))
    ensures |Upload(location, names, server).posted| == k + 1
    ensures Upload(location, names, server).outcome == Failed(RefusalError(server(k)))
    ensures Upload(location, names, server).posted == PostUrls(location, names[..k + 1])
  {
    assert FirstRefusal(|names|, server, 0) == k;
  }

  /** Five files whose third POST is answered 500: three POSTs are issued,
      the first two accepted, and the fourth and fifth files are never
      POSTed. */
  lemma ThirdOfFiveRefused(location: string, names: seq<string>, server: Server)
    requires |names| == 5
    requires Accepted(server(0)) && Accepted(server(1)) && server(2) == Answered(500)
    ensures Upload(location, names, server).posted == [location + names[0], location + names[1], location + names[2]]
    ensures Upload(location, names, server).outcome == Failed(Rejected(500))
  {
    UploadStopsAtFirstRefusal(location, names, server, 2);
  }

  /** An empty list issues no POST and succeeds. */
  lemma UploadNothing(location: string, server: Server)
    ensures Upload(location, [], server) == Exchange([], Deployed)
  {
  }
}
