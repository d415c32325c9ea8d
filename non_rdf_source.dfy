/**
 * The configuration layer of the LDP Non-RDF Source tests (LDP 1.0,
 * section 4.4): which configured container the tests post binaries into,
 * the per-test URIs derived from it, and the pass conditions of the
 * `Link` header and container-listing checks.
 */
module NonRdfSource {
  import opened Wrappers
  import opened Text
  import opened Vocabulary
  import opened Uris
  import opened Rdf
  import opened Links
  import opened Http
  import opened Priority

  /** The container chosen at construction, with the kind it was configured as. */
  datatype RootContainer = RootContainer(uri: string, kind: ContainerKind)

  /** Basic first, then direct, then indirect. */
  const RootPriority: seq<ContainerKind> := [Basic, Direct, Indirect]

  /**
   * The constructor: the first non-blank of the three parameters, paired with
   * its kind; None stands for the `SkipException` thrown when all are blank.
   */
  function ResolveRoot(basicContainer: Option<string>, directContainer: Option<string>, indirectContainer: Option<string>): (r: Option<RootContainer>)
    ensures r.None? <==> IsBlank(basicContainer) && IsBlank(directContainer) && IsBlank(indirectContainer)
    ensures r.Some? ==> ContainerParams(basicContainer, directContainer, indirectContainer).Get(r.value.kind) == Some(r.value.uri)
    ensures r.Some? ==> IsNotBlank(Some(r.value.uri))
    ensures IsNotBlank(basicContainer) ==> r == Some(RootContainer(basicContainer.value, Basic))
    ensures r.Some? && r.value.kind != Basic ==> IsBlank(basicContainer)
    ensures r.Some? && r.value.kind == Indirect ==> IsBlank(directContainer)
  {
    if IsNotBlank(basicContainer) then Some(RootContainer(basicContainer.value, Basic))
    else if IsNotBlank(directContainer) then Some(RootContainer(directContainer.value, Direct))
    else if IsNotBlank(indirectContainer) then Some(RootContainer(indirectContainer.value, Indirect))
    else None
  }

  /** The resolver picks exactly what the basic-direct-indirect priority order with the blank test picks. */
  lemma ResolveRootFollowsPriority(basicContainer: Option<string>, directContainer: Option<string>, indirectContainer: Option<string>)
    ensures var p := ContainerParams(basicContainer, directContainer, indirectContainer);
            match FirstConfigured(RootPriority, p, IsNotBlank)
            case None => ResolveRoot(basicContainer, directContainer, indirectContainer) == None
            case Some(k) =>
              p.Get(RootPriority[k]).Some? &&
              ResolveRoot(basicContainer, directContainer, indirectContainer) == Some(RootContainer(p.Get(RootPriority[k]).value, RootPriority[k]))
  {
    var p := ContainerParams(basicContainer, directContainer, indirectContainer);
    assert RootPriority[1..] == [Direct, Indirect];
    assert [Direct, Indirect][1..] == [Indirect];
    assert [Indirect][1..] == [];
    if IsNotBlank(basicContainer) {
      assert FirstConfigured(RootPriority, p, IsNotBlank) == Some(0);
    } else if IsNotBlank(directContainer) {
      assert FirstConfigured([Direct, Indirect], p, IsNotBlank) == Some(0);
      assert FirstConfigured(RootPriority, p, IsNotBlank) == Some(1);
    } else if IsNotBlank(indirectContainer) {
      assert FirstConfigured([Indirect], p, IsNotBlank) == Some(0);
      assert FirstConfigured([Direct, Indirect], p, IsNotBlank) == Some(1);
      assert FirstConfigured(RootPriority, p, IsNotBlank) == Some(2);
    } else {
      assert FirstConfigured([], p, IsNotBlank) == None;
      assert FirstConfigured([Indirect], p, IsNotBlank) == None;
      assert FirstConfigured([Direct, Indirect], p, IsNotBlank) == None;
    }
  }

  /** A blank basic parameter never shadows a configured direct container. */
  lemma BlankBasicFallsThrough(blank: string, direct: string)
    requires IsBlank(Some(blank)) && IsNotBlank(Some(direct))
    ensures ResolveRoot(Some(blank), Some(direct), None) == Some(RootContainer(direct, Direct))
  {
  }

  /**
   * `getResourceUri`: the root container extended by one path segment, the
   * sixteen random letters.
   */
  function ResourceUri(root: RootContainer, randomSegment: string): (uri: string)
    requires IsRandomSegment(randomSegment)
    ensures Parent(uri) == Directory(root.uri)
    ensures LastSegment(uri) == randomSegment
    ensures |root.uri| < |uri| && uri[..|root.uri|] == root.uri
  {
    assert '/' !in randomSegment by {
      forall i | 0 <= i < |randomSegment| ensures randomSegment[i] != '/' {
        assert IsAsciiLetter(randomSegment[i]);
      }
    }
    AppendSegment(root.uri, randomSegment)
  }

  /** Two runs with different random segments never share a container URI. */
  lemma ResourceUriInjective(root: RootContainer, s1: string, s2: string)
    requires IsRandomSegment(s1) && IsRandomSegment(s2)
    ensures ResourceUri(root, s1) == ResourceUri(root, s2) ==> s1 == s2
  {
  }

  const Slug: string := "test"
  const PngSuffix: string := ".png"
  const File: string := Slug + PngSuffix

  /** The URIs one test works with: its container, the LDP-RS `rs` and the LDP-NR `nr`. */
  datatype TestUris = TestUris(container: string, rs: string, nr: string)

  /** `container = getResourceUri()`, `rs = container + "/" + slug`, `nr = container + "/" + file`. */
  function DeriveTestUris(root: RootContainer, randomSegment: string): (u: TestUris)
    requires IsRandomSegment(randomSegment)
    ensures Parent(u.container) == Directory(root.uri) && LastSegment(u.container) == randomSegment
    ensures Parent(u.rs) == u.container + "/" && LastSegment(u.rs) == Slug
    ensures Parent(u.nr) == u.container + "/" && LastSegment(u.nr) == File
    ensures u.nr == u.rs + PngSuffix
    ensures |u.rs| < |u.nr| && u.nr[..|u.rs|] == u.rs
  {
    var container := ResourceUri(root, randomSegment);
    var dir := container + "/";
    LastSegmentAfterSlash(dir, Slug);
    LastSegmentAfterSlash(dir, File);
    assert dir + File == (dir + Slug) + PngSuffix;
    TestUris(container, dir + Slug, dir + File)
  }

  /** Different random segments give disjoint sets of per-test URIs, so runs cannot collide. */
  lemma {:induction false} DistinctRunsDistinctUris(root: RootContainer, s1: string, s2: string)
    requires IsRandomSegment(s1) && IsRandomSegment(s2) && s1 != s2
    ensures var u1, u2 := DeriveTestUris(root, s1), DeriveTestUris(root, s2);
            u1.container != u2.container && u1.rs != u2.rs && u1.nr != u2.nr
  {
    var u1, u2 := DeriveTestUris(root, s1), DeriveTestUris(root, s2);
    ResourceUriInjective(root, s1, s2);
    assert u1.rs[..|u1.container|] == u1.container && |u1.rs| == |u1.container| + 1 + |Slug|;
    assert u2.rs[..|u2.container|] == u2.container && |u2.rs| == |u2.container| + 1 + |Slug|;
    assert u1.nr[..|u1.container|] == u1.container && |u1.nr| == |u1.container| + 1 + |File|;
    assert u2.nr[..|u2.container|] == u2.container && |u2.nr| == |u2.container| + 1 + |File|;
  }

  /**
   * The POST of the PNG (lines shared by every LDP-NR test): status 201,
   * `Location` equal to `nr`, and links to `rs` (describedby) and to the
   * container's type (type).
   */
  function PostResourcePasses(response: Response, uris: TestUris, containerType: ContainerKind): (p: bool)
    ensures p <==>
            && response.status == StatusCreated
            && response.location == Some(uris.nr)
            && RequiredPostLinks(uris, containerType) <= LinkSet(response.links)
  {
    HasLinkIffMember(response.links, uris.rs, LinkRelDescribedBy);
    HasLinkIffMember(response.links, containerType.TypeUri(), LinkRelType);
    response.status == StatusCreated
    && response.location == Some(uris.nr)
    && HasLink(response.links, uris.rs, LinkRelDescribedBy)
    && HasLink(response.links, containerType.TypeUri(), LinkRelType)
  }

  /** The two links the POST response must carry. */
  function RequiredPostLinks(uris: TestUris, containerType: ContainerKind): set<Link> {
    {Link(uris.rs, LinkRelDescribedBy), Link(containerType.TypeUri(), LinkRelType)}
  }

  /** A conforming server's reply passes, whatever other links it adds before them. */
  lemma ConformingPostPasses(root: RootContainer, randomSegment: string, others: seq<Link>)
    requires IsRandomSegment(randomSegment)
    ensures var u := DeriveTestUris(root, randomSegment);
            PostResourcePasses(
              Response(StatusCreated, Some(u.nr), others + [Link(u.rs, LinkRelDescribedBy), Link(root.kind.TypeUri(), LinkRelType)]),
              u, root.kind)
  {
    var u := DeriveTestUris(root, randomSegment);
    var tail := [Link(u.rs, LinkRelDescribedBy), Link(root.kind.TypeUri(), LinkRelType)];
    assert tail[0] == Link(u.rs, LinkRelDescribedBy);
    assert tail[1] == Link(root.kind.TypeUri(), LinkRelType);
    HasLinkConcat(others, tail, u.rs, LinkRelDescribedBy);
    HasLinkConcat(others, tail, root.kind.TypeUri(), LinkRelType);
  }

  /** A reply that advertises a container type other than the configured one fails. */
  lemma OtherContainerTypeFails(uris: TestUris, configured: ContainerKind, advertised: ContainerKind)
    requires configured != advertised
    ensures !PostResourcePasses(
              Response(StatusCreated, Some(uris.nr), [Link(uris.rs, LinkRelDescribedBy), Link(advertised.TypeUri(), LinkRelType)]),
              uris, configured)
  {
    TypeUriInjective(configured, advertised);
  }

  /** The container listing (lines 145-149): type ldp:Resource and ldp:Container, a modification date, and containment of `nr`. */
  function ContainerListingPasses(model: Graph, uris: TestUris): (p: bool)
    ensures p <==> RequiredListingStatements(uris) <= model && HasProperty(model, uris.container, DctermsModified)
  {
    && HasStatement(model, uris.container, RdfType, Iri(LdpResource))
    && HasStatement(model, uris.container, RdfType, Iri(LdpContainer))
    && HasProperty(model, uris.container, DctermsModified)
    && HasStatement(model, uris.container, LdpContains, Iri(uris.nr))
  }

  /** The statements the listing must contain verbatim. */
  function RequiredListingStatements(uris: TestUris): set<Triple> {
    {
      Triple(Iri(uris.container), RdfType, Iri(LdpResource)),
      Triple(Iri(uris.container), RdfType, Iri(LdpContainer)),
      Triple(Iri(uris.container), LdpContains, Iri(uris.nr))
    }
  }

  /** A listing that passes keeps passing when the server adds statements. */
  lemma ContainerListingMonotone(smaller: Graph, larger: Graph, uris: TestUris)
    requires smaller <= larger && ContainerListingPasses(smaller, uris)
    ensures ContainerListingPasses(larger, uris)
  {
  }

  /** The smallest listing that passes: the required statements and one modification date. */
  lemma MinimalListingPasses(uris: TestUris, modified: Term)
    ensures ContainerListingPasses(RequiredListingStatements(uris) + {Triple(Iri(uris.container), DctermsModified, modified)}, uris)
  {
    var g := RequiredListingStatements(uris) + {Triple(Iri(uris.container), DctermsModified, modified)};
    assert Triple(Iri(uris.container), DctermsModified, modified) in g;
  }

  /**
   * A listing that speaks only of one run's container, however many
   * statements it makes, never satisfies the check of a run with another
   * random segment.
   */
  lemma ListingOfOtherRunFails(root: RootContainer, s1: string, s2: string, g: Graph)
    requires IsRandomSegment(s1) && IsRandomSegment(s2) && s1 != s2
    requires forall t :: t in g ==> t.subject == Iri(DeriveTestUris(root, s1).container)
    ensures !ContainerListingPasses(g, DeriveTestUris(root, s2))
  {
    var u2 := DeriveTestUris(root, s2);
    DistinctRunsDistinctUris(root, s1, s2);
    assert Triple(Iri(u2.container), RdfType, Iri(LdpResource)) in RequiredListingStatements(u2);
  }

  /** The LDP-NR's own links advertise type ldp:NonRDFSource (line 304). */
  function NonRdfTypeLinkPasses(linksNr: seq<Link>): (p: bool)
    ensures p <==> Link(LdpNonRdfSource, LinkRelType) in LinkSet(linksNr)
  {
    HasLinkIffMember(linksNr, LdpNonRdfSource, LinkRelType);
    HasLink(linksNr, LdpNonRdfSource, LinkRelType)
  }

  /** Advertising only a container type does not make a resource an LDP-NR. */
  lemma ContainerTypeIsNotNonRdfType(kind: ContainerKind)
    ensures !NonRdfTypeLinkPasses([Link(kind.TypeUri(), LinkRelType)])
  {
    TypeUriIsNotNonRdfSource(kind);
  }

  /** The LDP-NR's own links point to the associated LDP-RS `rs` (line 351). */
  function DescribedByLinkPasses(linksNr: seq<Link>, uris: TestUris): (p: bool)
    ensures p <==> Link(uris.rs, LinkRelDescribedBy) in LinkSet(linksNr)
  {
    HasLinkIffMember(linksNr, uris.rs, LinkRelDescribedBy);
    HasLink(linksNr, uris.rs, LinkRelDescribedBy)
  }

  /** The POST check and the associated-resource check ask for the same describedby link. */
  lemma PostPassImpliesDescribedBy(response: Response, uris: TestUris, containerType: ContainerKind)
    ensures PostResourcePasses(response, uris, containerType) ==> DescribedByLinkPasses(response.links, uris)
  {
  }
}
