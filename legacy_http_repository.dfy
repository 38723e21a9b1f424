/** The older HTTP backend (`HTTPRepository`): the same fail-fast POST loop
    over an unauthenticated default client, without a run to mark and
    without ever closing that client. */
module LegacyHttpBackend {
  import opened Http

  class HTTPRepository {
    const remoteLocation: string

    /** Every URL POSTed through this repository, in order. */
    var posted: seq<string>
    /** Clients and responses created and not yet closed. */
    var openClients: nat
    var openResponses: nat

    constructor (remoteLocation: string)
      ensures this.remoteLocation == NormalizeLocation(remoteLocation)
      ensures posted == [] && openClients == 0 && openResponses == 0
    {
      this.remoteLocation := NormalizeLocation(remoteLocation);
      posted := [];
      openClients := 0;
      openResponses := 0;
    }

    /** `deploy(files)`, with each file given by its name. The default client
        it creates stays open whatever the outcome. */
    method Deploy(names: seq<string>, server: Server) returns (outcome: Outcome)
      modifies this
      ensures posted == old(posted) + Upload(remoteLocation, names, server).posted
      ensures outcome == Upload(remoteLocation, names, server).outcome
      ensures openClients == old(openClients) + 1
      ensures openResponses == old(openResponses)
    {
      openClients := openClients + 1;

      ghost var k := FirstRefusal(|names|, server, 0);
      var i := 0;
      while i < |names|
        invariant i <= k
        invariant forall j :: 0 <= j < i ==> Accepted(server(j))
        invariant posted == old(posted) + PostUrls(remoteLocation, names[..i])
        invariant openClients == old(openClients) + 1
        invariant openResponses == old(openResponses)
      {
        var url := remoteLocation + names[i];
        posted := posted + [url];
        assert PostUrls(remoteLocation, names[..i]) + [url] == PostUrls(remoteLocation, names[..i + 1]);
        var reply := server(i);
        if !Accepted(reply) {
          assert k == i;
          assert Upload(remoteLocation, names, server)
              == Exchange(PostUrls(remoteLocation, names[..i + 1]), Failed(RefusalError(reply)));
        }
        if reply.ConnectionFailed? {
          return Failed(TransportFailure);
        }
        openResponses := openResponses + 1;
        if !IsSuccessful(reply.status) {
          openResponses := openResponses - 1;
          return Failed(Rejected(reply.status));
        }
        openResponses := openResponses - 1;
        i := i + 1;
      }
      assert names[..i] == names;
      assert k == |names|;
      return Deployed;
    }
  }
}
