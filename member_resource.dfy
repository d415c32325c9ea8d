/**
 * The member-resource fixture of the LDP-RS tests: which resource the tests
 * run against, how the harness provisions one with a single POST when none
 * is configured, and the teardown that deletes only what it provisioned.
 */
module MemberResource {
  import opened Wrappers
  import opened Text
  import opened Vocabulary
  import opened Rdf
  import opened Http
  import opened Priority

  /** Where the member resource comes from: configured directly, or to be created in a container. */
  datatype Origin = Given(uri: string) | FromContainer(container: string)

  /** Why construction ends without a usable resource. */
  datatype SetupError =
    | NotConfigured                                           // SkipException: nothing to test against
    | PostRejected(status: int, location: Option<string>)     // the POST's expectations (201, Location) failed

  /** The fields of a constructed fixture; `container` is set exactly when the harness created the resource. */
  datatype MemberState = MemberState(container: Option<string>, memberResource: string) {
    predicate Owned() {
      container.Some?
    }
  }

  /** Direct first, then indirect, then basic (null checks only). */
  const MemberPriority: seq<ContainerKind> := [Direct, Indirect, Basic]

  /** The first branch chain of the constructor. */
  function ResolveMember(memberResource: Option<string>, directContainer: Option<string>,
                         indirectContainer: Option<string>, basicContainer: Option<string>): (r: Option<Origin>)
    ensures memberResource.Some? ==> r == Some(Given(memberResource.value))
    ensures r.None? <==> memberResource.None? && directContainer.None? && indirectContainer.None? && basicContainer.None?
    ensures r.Some? && r.value.FromContainer? ==>
              memberResource.None? &&
              Some(r.value.container) in [directContainer, indirectContainer, basicContainer]
    ensures directContainer.Some? && r.Some? && r.value.FromContainer? ==> r.value.container == directContainer.value
    ensures memberResource.None? && r.Some? ==> r.value.FromContainer?
  {
    if memberResource.Some? then Some(Given(memberResource.value))
    else if directContainer.Some? then Some(FromContainer(directContainer.value))
    else if indirectContainer.Some? then Some(FromContainer(indirectContainer.value))
    else if basicContainer.Some? then Some(FromContainer(basicContainer.value))
    else None
  }

  /** Without a configured resource, the container is the first present one in direct-indirect-basic order. */
  lemma ResolveMemberFollowsPriority(directContainer: Option<string>, indirectContainer: Option<string>, basicContainer: Option<string>)
    ensures var p := ContainerParams(basicContainer, directContainer, indirectContainer);
            match FirstConfigured(MemberPriority, p, IsPresent)
            case None => ResolveMember(None, directContainer, indirectContainer, basicContainer) == None
            case Some(k) =>
              p.Get(MemberPriority[k]).Some? &&
              ResolveMember(None, directContainer, indirectContainer, basicContainer) == Some(FromContainer(p.Get(MemberPriority[k]).value))
  {
    var p := ContainerParams(basicContainer, directContainer, indirectContainer);
    assert MemberPriority[1..] == [Indirect, Basic];
    assert [Indirect, Basic][1..] == [Basic];
    assert [Basic][1..] == [];
    if directContainer.Some? {
      assert FirstConfigured(MemberPriority, p, IsPresent) == Some(0);
    } else if indirectContainer.Some? {
      assert FirstConfigured([Indirect, Basic], p, IsPresent) == Some(0);
      assert FirstConfigured(MemberPriority, p, IsPresent) == Some(1);
    } else if basicContainer.Some? {
      assert FirstConfigured([Basic], p, IsPresent) == Some(0);
      assert FirstConfigured([Indirect, Basic], p, IsPresent) == Some(1);
      assert FirstConfigured(MemberPriority, p, IsPresent) == Some(2);
    } else {
      assert FirstConfigured([], p, IsPresent) == None;
      assert FirstConfigured([Basic], p, IsPresent) == None;
      assert FirstConfigured([Indirect, Basic], p, IsPresent) == None;
    }
  }

  /** The provisioning body: the fixture graph read from `memberTtl` if there is one, else the default model. */
  function ProvisioningBody(fixture: Option<Graph>, defaultModel: Graph): (body: Graph)
    ensures fixture.Some? ==> body == fixture.value
    ensures fixture.None? ==> body == defaultModel
  {
    fixture.GetOr(defaultModel)
  }

  /** The requests construction issues: one POST of the body to the chosen container, or none. */
  function SetupRequests(memberResource: Option<string>, directContainer: Option<string>, indirectContainer: Option<string>,
                         basicContainer: Option<string>, fixture: Option<Graph>, defaultModel: Graph): (reqs: seq<Request>)
    ensures |reqs| <= 1
    ensures |reqs| == 1 <==> ResolveMember(memberResource, directContainer, indirectContainer, basicContainer).Some? && memberResource.None?
    ensures |reqs| == 1 ==> reqs[0].Post? && reqs[0].contentType == TextTurtle
    ensures |reqs| == 1 ==>
              ResolveMember(memberResource, directContainer, indirectContainer, basicContainer) == Some(FromContainer(reqs[0].target))
    ensures |reqs| == 1 && fixture.Some? ==> reqs[0].body == fixture.value
    ensures |reqs| == 1 && fixture.None? ==> reqs[0].body == defaultModel
  {
    match ResolveMember(memberResource, directContainer, indirectContainer, basicContainer)
    case Some(FromContainer(c)) => [Post(c, TextTurtle, ProvisioningBody(fixture, defaultModel))]
    case _ => []
  }

  /** The fields the constructor leaves behind, or why it throws. `reply` is the server's answer to the POST. */
  function Setup(memberResource: Option<string>, directContainer: Option<string>, indirectContainer: Option<string>,
                 basicContainer: Option<string>, reply: Response): (r: Result<MemberState, SetupError>)
    ensures r == Failure(NotConfigured) <==>
              memberResource.None? && directContainer.None? && indirectContainer.None? && basicContainer.None?
    ensures memberResource.Some? ==> r == Success(MemberState(None, memberResource.value))
    ensures r.Success? ==> (r.value.Owned() <==> memberResource.None?)
    ensures r.Success? && r.value.Owned() ==>
              && reply.status == StatusCreated
              && reply.location == Some(r.value.memberResource)
              && ResolveMember(memberResource, directContainer, indirectContainer, basicContainer) == Some(FromContainer(r.value.container.value))
    ensures r.Failure? && r.error.PostRejected? ==> reply.status != StatusCreated || reply.location.None?
  {
    match ResolveMember(memberResource, directContainer, indirectContainer, basicContainer)
    case None => Failure(NotConfigured)
    case Some(Given(uri)) => Success(MemberState(None, uri))
    case Some(FromContainer(c)) =>
      if reply.status == StatusCreated && reply.location.Some? then Success(MemberState(Some(c), reply.location.value))
      else Failure(PostRejected(reply.status, reply.location))
  }

  /** The requests `deleteTestResource` issues: a DELETE of the resource when the harness owns it. */
  function Teardown(s: MemberState): (reqs: seq<Request>)
    ensures |reqs| <= 1
    ensures |reqs| == 1 <==> s.Owned()
    ensures forall i :: 0 <= i < |reqs| ==> reqs[i] == Delete(s.memberResource)
  {
    if s.container.Some? then [Delete(s.memberResource)] else []
  }

  /** Every request the fixture issues over its life: construction, then teardown if construction succeeded. */
  function Lifecycle(memberResource: Option<string>, directContainer: Option<string>, indirectContainer: Option<string>,
                     basicContainer: Option<string>, fixture: Option<Graph>, defaultModel: Graph, reply: Response): seq<Request>
  {
    SetupRequests(memberResource, directContainer, indirectContainer, basicContainer, fixture, defaultModel) +
    match Setup(memberResource, directContainer, indirectContainer, basicContainer, reply)
    case Success(s) => Teardown(s)
    case Failure(_) => []
  }

  /** An externally supplied resource is never posted to nor deleted. */
  lemma GivenResourceUntouched(uri: string, directContainer: Option<string>, indirectContainer: Option<string>,
                               basicContainer: Option<string>, fixture: Option<Graph>, defaultModel: Graph, reply: Response)
    ensures Lifecycle(Some(uri), directContainer, indirectContainer, basicContainer, fixture, defaultModel, reply) == []
  {
  }

  /**
   * At most one POST, and a DELETE only of the resource that POST created,
   * issued after it.
   */
  lemma OnlyProvisionedResourceDeleted(memberResource: Option<string>, directContainer: Option<string>, indirectContainer: Option<string>,
                                       basicContainer: Option<string>, fixture: Option<Graph>, defaultModel: Graph, reply: Response)
    ensures var life := Lifecycle(memberResource, directContainer, indirectContainer, basicContainer, fixture, defaultModel, reply);
            && |life| <= 2
            && (forall k :: 1 <= k < |life| ==> !life[k].Post?)
            && (forall k :: 0 <= k < |life| && life[k].Delete? ==>
                  && k == 1 && life[0].Post?
                  && reply.status == StatusCreated
                  && reply.location == Some(life[k].target))
  {
  }

  /** With only containers configured and a 201 reply with a `Location`, the fixture creates that resource and later deletes it. */
  lemma ProvisionedResourceDeletedOnce(directContainer: Option<string>, indirectContainer: Option<string>,
                                       basicContainer: Option<string>, fixture: Option<Graph>, defaultModel: Graph, location: string)
    requires directContainer.Some? || indirectContainer.Some? || basicContainer.Some?
    ensures var life := Lifecycle(None, directContainer, indirectContainer, basicContainer, fixture, defaultModel,
                                  Response(StatusCreated, Some(location), []));
            && |life| == 2
            && life[0].Post?
            && ResolveMember(None, directContainer, indirectContainer, basicContainer) == Some(FromContainer(life[0].target))
            && life[1] == Delete(location)
  {
  }

  class MemberResourceTest {
    /** The request specification the fixture issues its requests through. */
    const client: HttpClient
    /** The container the resource was created in; None when the resource was given. */
    var container: Option<string>
    var memberResource: string

    function State(): MemberState
      reads this
    {
      MemberState(container, memberResource)
    }

    constructor Init(client: HttpClient, container: Option<string>, memberResource: string)
      ensures this.client == client && this.container == container && this.memberResource == memberResource
    {
      this.client := client;
      this.container := container;
      this.memberResource := memberResource;
    }

    /**
     * The Java constructor, which may throw: a result carrying the new fixture,
     * or the error. `fixture` is what `readModel(memberTtl)` returned,
     * `defaultModel` what `getDefaultModel()` returns, and `reply` the server's
     * answer to the POST (consulted only when one is issued).
     */
    static method Create(client: HttpClient, memberResource: Option<string>, directContainer: Option<string>,
                         indirectContainer: Option<string>, basicContainer: Option<string>,
                         fixture: Option<Graph>, defaultModel: Graph, reply: Response)
      returns (r: Result<MemberResourceTest, SetupError>)
      modifies client
      ensures client.sent == old(client.sent) + SetupRequests(memberResource, directContainer, indirectContainer, basicContainer, fixture, defaultModel)
      ensures r.Success? <==> Setup(memberResource, directContainer, indirectContainer, basicContainer, reply).Success?
      ensures r.Failure? ==> Setup(memberResource, directContainer, indirectContainer, basicContainer, reply) == Failure(r.error)
      ensures r.Success? ==>
                && fresh(r.value) && r.value.client == client
                && Setup(memberResource, directContainer, indirectContainer, basicContainer, reply) == Success(r.value.State())
    {
      var chosen: Option<string> := None;
      var resource: Option<string> := None;
      if memberResource.Some? {
        resource := memberResource;
      } else if directContainer.Some? {
        chosen := directContainer;
      } else if indirectContainer.Some? {
        chosen := indirectContainer;
      } else if basicContainer.Some? {
        chosen := basicContainer;
      } else {
        return Failure(NotConfigured);
      }

      if resource.None? {
        var model := fixture;
        if model.None? {
          model := Some(defaultModel);
        }
        client.IssuePost(chosen.value, TextTurtle, model.value);
        if reply.status != StatusCreated || reply.location.None? {
          return Failure(PostRejected(reply.status, reply.location));
        }
        resource := reply.location;
      }
      var test := new MemberResourceTest.Init(client, chosen, resource.value);
      return Success(test);
    }

    /** `getResourceUri`: the resource the tests run against. */
    function ResourceUri(): (uri: string)
      reads this
      ensures uri == State().memberResource
    {
      memberResource
    }

    /** `deleteTestResource`: DELETE the resource if, and only if, the harness created it. */
    method DeleteTestResource()
      modifies client
      ensures client.sent == old(client.sent) + Teardown(old(State()))
      ensures State() == old(State())
    {
      if container.Some? {
        client.IssueDelete(memberResource);
      }
    }
  }

  /** A whole run of the fixture: construct, then tear down when construction succeeded. */
  method RunFixture(client: HttpClient, memberResource: Option<string>, directContainer: Option<string>,
                    indirectContainer: Option<string>, basicContainer: Option<string>,
                    fixture: Option<Graph>, defaultModel: Graph, reply: Response)
    modifies client
    ensures client.sent == old(client.sent) +
              Lifecycle(memberResource, directContainer, indirectContainer, basicContainer, fixture, defaultModel, reply)
  {
    var r := MemberResourceTest.Create(client, memberResource, directContainer, indirectContainer, basicContainer,
                                       fixture, defaultModel, reply);
    if r.Success? {
      r.value.DeleteTestResource();
    }
  }
}
