/**
 * The LDP Basic Container tests (LDP 1.0, section 5.3): the stored
 * `basicContainer` parameter, the null-only guard that skips the class,
 * and the pass conditions of its two checks.
 */
module BasicContainer {
  import opened Wrappers
  import opened Text
  import opened Vocabulary
  import opened Rdf
  import opened Links
  import opened Http
  import NonRdfSource

  /** What the `@BeforeClass` guard decides: run the class's tests, or skip them all. */
  datatype Guard = Proceed | Skip

  class BasicContainerTest {
    /** The `basicContainer` suite parameter, null when not configured. */
    const basicContainer: Option<string>

    constructor (basicContainer: Option<string>)
      ensures this.basicContainer == basicContainer
    {
      this.basicContainer := basicContainer;
    }

    /** `hasBasicContainer`: skips exactly when the parameter is null; an empty or blank value runs the tests. */
    function HasBasicContainer(): (g: Guard)
      ensures g == Skip <==> basicContainer.None?
    {
      if basicContainer.None? then Skip else Proceed
    }

    /** `getResourceUri`: the parameter as configured, unchanged. */
    function ResourceUri(): (uri: Option<string>)
      ensures uri == basicContainer
    {
      basicContainer
    }
  }

  /**
   * The guard only tests for null: a blank parameter passes it here, while the
   * Non-RDF Source tests treat the same blank value as not configured.
   */
  lemma BlankParameterPassesGuardOnly(t: BasicContainerTest, blank: string)
    requires t.basicContainer == Some(blank) && IsBlank(Some(blank))
    ensures t.HasBasicContainer() == Proceed
    ensures t.ResourceUri() == Some(blank)
    ensures NonRdfSource.ResolveRoot(t.basicContainer, None, None).None?
  {
  }

  /** `testContainerSupportsHttpLinkHeader`: a 200 reply with a type link to ldp:BasicContainer. */
  function LinkHeaderTestPasses(response: Response): (p: bool)
    ensures p <==> response.status == StatusOk && Link(LdpBasicContainer, LinkRelType) in LinkSet(response.links)
  {
    HasLinkIffMember(response.links, LdpBasicContainer, LinkRelType);
    response.status == StatusOk && HasLink(response.links, LdpBasicContainer, LinkRelType)
  }

  /** A reply whose only type link names a container kind passes exactly when that kind is Basic. */
  lemma OnlyBasicTypeLinkPasses(kind: ContainerKind, others: seq<Link>)
    requires forall i :: 0 <= i < |others| ==> others[i].rel != LinkRelType
    ensures LinkHeaderTestPasses(Response(StatusOk, None, others + [Link(kind.TypeUri(), LinkRelType)])) <==> kind == Basic
  {
    var links := others + [Link(kind.TypeUri(), LinkRelType)];
    assert links[|others|] == Link(kind.TypeUri(), LinkRelType);
    HasLinkConcat(others, [Link(kind.TypeUri(), LinkRelType)], LdpBasicContainer, LinkRelType);
    TypeUriInjective(kind, Basic);
  }

  /** `testContainerTypeIsBasicContainer`: the container's own graph types it ldp:BasicContainer. */
  function ContainerTypeTestPasses(model: Graph, basicContainer: string): (p: bool)
    ensures p <==> Triple(Iri(basicContainer), RdfType, Iri(LdpBasicContainer)) in model
    ensures p ==> HasProperty(model, basicContainer, RdfType)
  {
    HasStatement(model, basicContainer, RdfType, Iri(LdpBasicContainer))
  }

  /** The type statement must be about the configured URI itself; typing another subject does not count. */
  lemma TypeOfOtherSubjectFails(basicContainer: string, other: string)
    requires other != basicContainer
    ensures !ContainerTypeTestPasses({Triple(Iri(other), RdfType, Iri(LdpBasicContainer))}, basicContainer)
    ensures ContainerTypeTestPasses({Triple(Iri(basicContainer), RdfType, Iri(LdpBasicContainer))}, basicContainer)
  {
  }

  /** Adding statements to a graph that passes the type test keeps it passing. */
  lemma ContainerTypeTestMonotone(smaller: Graph, larger: Graph, basicContainer: string)
    requires smaller <= larger && ContainerTypeTestPasses(smaller, basicContainer)
    ensures ContainerTypeTestPasses(larger, basicContainer)
  {
  }
}
