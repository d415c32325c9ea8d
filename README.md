# LDP test suite: container selection and member-resource lifecycle

A model of the configuration and lifecycle layer beneath three test classes of
the W3C Linked Data Platform 1.0 conformance suite: `NonRDFSourceTest`
(Non-RDF Sources, LDP section 4.4), `BasicContainerTest` (Basic Containers,
section 5.3) and `MemberResourceTest` (the LDP-RS fixture used by the RDF
Source tests).

- **Container-root resolution** (`NonRdfSource`): the first non-blank of the
  `basicContainer`, `directContainer`, `indirectContainer` parameters, in
  that order, with its container kind; none gives a skip. Each test then
  works in a child container `root/<16 random letters>` and derives
  `rs = container/test` and `nr = container/test.png`.
- **Member-resource lifecycle** (`MemberResource`): a configured
  `memberResource` is adopted; otherwise the first non-null of direct,
  indirect, basic container is chosen and one POST creates the resource,
  whose `Location` becomes the resource URI; that `Location` must be
  non-null and may be empty. Teardown deletes the resource only when the
  harness created it (`container != null`).
- **Basic-container guard and checks** (`BasicContainer`): a null-only skip
  guard, and the two pass conditions of the class.
- **Pass conditions** are membership tests: on `(target, rel)` link pairs
  (`Links`) and on `(subject, property, value)` triples (`Rdf`).

HTTP responses are inputs (status, optional `Location`, link list, parsed
triple set). Only the member-resource fixture's requests, its provisioning
POST and its teardown DELETE, are recorded, by an `HttpClient` object; the
requests of the Non-RDF Source and Basic Container tests are not. Java
`null` is `Option.None`; a constructor that throws `SkipException` or fails a
RestAssured expectation returns `None` or a `Failure`. The random path
segment is an input that must be sixteen ASCII letters.

## Model

| member | source | states |
|---|---|---|
| Text.NotBlankIsPresent | src/main/java/org/w3/ldp/testsuite/test/NonRDFSourceTest.java:48 | every non-blank value is non-null, while the empty string is non-null yet blank |
| Text.IsBlank | src/main/java/org/w3/ldp/testsuite/test/NonRDFSourceTest.java:48-54 | `StringUtils.isBlank`: null is blank, and a present string is non-blank iff some character of it is not Java whitespace |
| Text.IsNotBlank | src/main/java/org/w3/ldp/testsuite/test/NonRDFSourceTest.java:48-54 | a non-blank parameter is non-null and non-empty |
| Vocabulary.ContainerKind.TypeUri | src/main/java/org/w3/ldp/testsuite/test/NonRDFSourceTest.java:48-56 | each container kind advertises an `ldp:` class URI |
| Vocabulary.TypeUriInjective | src/main/java/org/w3/ldp/testsuite/test/NonRDFSourceTest.java:48-56 | distinct container kinds have distinct type URIs, so `containerType` identifies the chosen parameter |
| Vocabulary.TypeUriIsNotNonRdfSource | src/main/java/org/w3/ldp/testsuite/test/NonRDFSourceTest.java:304 | no container type equals `ldp:NonRDFSource` |
| Uris.LastSegment | src/main/java/org/w3/ldp/testsuite/test/NonRDFSourceTest.java:64 | the result is the '/'-free suffix of the URI, preceded by '/' unless it is the whole URI |
| Uris.Parent | src/main/java/org/w3/ldp/testsuite/test/NonRDFSourceTest.java:64 | parent and last segment concatenate back to the URI; the parent is empty or ends with '/' |
| Uris.Directory | src/main/java/org/w3/ldp/testsuite/test/NonRDFSourceTest.java:64 | the base extended by a '/' only when it does not already end with one, so that it ends with '/' |
| Uris.LastSegmentAfterSlash | src/main/java/org/w3/ldp/testsuite/test/NonRDFSourceTest.java:64 | behind a '/', the last segment is the '/'-free text that follows and the parent is what precedes it |
| Uris.AppendSegment | src/main/java/org/w3/ldp/testsuite/test/NonRDFSourceTest.java:64 | `UriBuilder.path` of one segment: the result's last segment is that segment, its parent is the base as a directory, and the base is a proper prefix |
| Uris.AppendSegmentInjective | src/main/java/org/w3/ldp/testsuite/test/NonRDFSourceTest.java:64 | different segments appended to the same base give different URIs |
| Rdf.HasStatement | src/main/java/org/w3/ldp/testsuite/test/NonRDFSourceTest.java:145-149 | `model.contains(s, p, o)`: an exact statement about `s` also satisfies the property-only query for `s` and `p` |
| Rdf.HasProperty | src/main/java/org/w3/ldp/testsuite/test/NonRDFSourceTest.java:148 | `model.contains(s, p)`: any statement with subject `s` and property `p`, whatever its value, satisfies it; an empty graph never does |
| Rdf.HasPropertyIffSomeStatement | src/main/java/org/w3/ldp/testsuite/test/NonRDFSourceTest.java:148 | the property-only query holds iff some statement with that subject and property exists |
| Rdf.QueriesMonotone | src/main/java/org/w3/ldp/testsuite/test/NonRDFSourceTest.java:145-149 | statement and property queries stay true in any larger graph |
| Links.HasLink | src/main/java/org/w3/ldp/testsuite/test/NonRDFSourceTest.java:98-99 | `containsLinkHeader(target, rel, links)`: holds iff the pair (target, rel) occurs in the link list |
| Links.HasLinkIffMember | src/main/java/org/w3/ldp/testsuite/test/NonRDFSourceTest.java:98-99 | link containment holds iff the exact (target, rel) pair is among the links |
| Links.HasLinkIgnoresOrder | src/main/java/org/w3/ldp/testsuite/test/NonRDFSourceTest.java:96-99 | two link lists with the same elements give the same verdict |
| Links.HasLinkConcat | src/main/java/org/w3/ldp/testsuite/test/NonRDFSourceTest.java:96 | a link is in concatenated header values iff it is in one of the parts |
| Links.HasLinkEmpty | src/main/java/org/w3/ldp/testsuite/test/NonRDFSourceTest.java:98 | no link is found in an empty list |
| Http.HttpClient.constructor | src/main/java/org/w3/ldp/testsuite/test/MemberResourceTest.java:49 | a fresh request specification has issued nothing |
| Http.HttpClient.IssuePost | src/main/java/org/w3/ldp/testsuite/test/MemberResourceTest.java:49-52 | a POST appends exactly that request to the issued requests |
| Http.HttpClient.IssueDelete | src/main/java/org/w3/ldp/testsuite/test/MemberResourceTest.java:67 | a DELETE appends exactly that request to the issued requests |
| Priority.FirstConfigured | src/main/java/org/w3/ldp/testsuite/test/MemberResourceTest.java:33-40 | the position of the first usable parameter in a priority order, every earlier one unusable; None iff none is usable |
| NonRdfSource.ResolveRoot | src/main/java/org/w3/ldp/testsuite/test/NonRDFSourceTest.java:47-60 | skip iff all three parameters are blank; otherwise the chosen URI is the non-blank parameter of the chosen kind, a non-blank basic always wins, and a later kind is chosen only when every earlier parameter is blank |
| NonRdfSource.ResolveRootFollowsPriority | src/main/java/org/w3/ldp/testsuite/test/NonRDFSourceTest.java:48-59 | the resolver equals the first non-blank parameter in basic, direct, indirect order, paired with its kind |
| NonRdfSource.BlankBasicFallsThrough | src/main/java/org/w3/ldp/testsuite/test/NonRDFSourceTest.java:48-53 | a blank (empty or whitespace) basic parameter counts as absent and a configured direct container is chosen |
| NonRdfSource.ResourceUri | src/main/java/org/w3/ldp/testsuite/test/NonRDFSourceTest.java:62-65 | the root container extended by exactly one segment, the sixteen random letters |
| NonRdfSource.ResourceUriInjective | src/main/java/org/w3/ldp/testsuite/test/NonRDFSourceTest.java:62-65 | different random segments give different child containers |
| NonRdfSource.DeriveTestUris | src/main/java/org/w3/ldp/testsuite/test/NonRDFSourceTest.java:78-83 | `rs` and `nr` are one segment below the container (`test` and `test.png`), and `nr` is `rs` plus `.png`, so `rs` is a proper prefix of `nr` |
| NonRdfSource.DistinctRunsDistinctUris | src/main/java/org/w3/ldp/testsuite/test/NonRDFSourceTest.java:78-83 | runs with different random segments share none of container, `rs`, `nr` |
| NonRdfSource.PostResourcePasses | src/main/java/org/w3/ldp/testsuite/test/NonRDFSourceTest.java:91-99 | the POST check passes iff status is 201, `Location` is `nr`, and both (`rs`, describedby) and (container type, type) are among the links; either link missing fails it |
| NonRdfSource.ConformingPostPasses | src/main/java/org/w3/ldp/testsuite/test/NonRDFSourceTest.java:91-99 | a 201 reply locating `nr` with both links passes, whatever links precede them |
| NonRdfSource.OtherContainerTypeFails | src/main/java/org/w3/ldp/testsuite/test/NonRDFSourceTest.java:98-99 | a 201 reply locating `nr` whose links are exactly the describedby link and a type link to a container kind other than the configured one fails |
| NonRdfSource.ContainerListingPasses | src/main/java/org/w3/ldp/testsuite/test/NonRDFSourceTest.java:145-149 | the listing passes iff it types the container `ldp:Resource` and `ldp:Container`, states `ldp:contains nr`, and gives it some `dcterms:modified` |
| NonRdfSource.ContainerListingMonotone | src/main/java/org/w3/ldp/testsuite/test/NonRDFSourceTest.java:145-149 | a passing listing still passes with more statements |
| NonRdfSource.MinimalListingPasses | src/main/java/org/w3/ldp/testsuite/test/NonRDFSourceTest.java:145-149 | the three required statements plus one modification date suffice |
| NonRdfSource.ListingOfOtherRunFails | src/main/java/org/w3/ldp/testsuite/test/NonRDFSourceTest.java:136-149 | a listing whose statements all concern the container of one run, however many there are, never passes the check of a run with another random segment |
| NonRdfSource.ContainerTypeIsNotNonRdfType | src/main/java/org/w3/ldp/testsuite/test/NonRDFSourceTest.java:304 | a type link to a container class does not satisfy the `ldp:NonRDFSource` type check |
| NonRdfSource.NonRdfTypeLinkPasses | src/main/java/org/w3/ldp/testsuite/test/NonRDFSourceTest.java:304 | the LDP-NR check passes iff (`ldp:NonRDFSource`, type) is among the links of `nr` |
| NonRdfSource.DescribedByLinkPasses | src/main/java/org/w3/ldp/testsuite/test/NonRDFSourceTest.java:351 | the associated-resource check passes iff (`rs`, describedby) is among the links of `nr` |
| NonRdfSource.PostPassImpliesDescribedBy | src/main/java/org/w3/ldp/testsuite/test/NonRDFSourceTest.java:340-351 | links passing the POST check also pass the describedby check on `rs` |
| BasicContainer.BasicContainerTest.constructor | src/main/java/org/w3/ldp/testsuite/test/BasicContainerTest.java:28-31 | the parameter is stored verbatim |
| BasicContainer.BasicContainerTest.HasBasicContainer | src/main/java/org/w3/ldp/testsuite/test/BasicContainerTest.java:34-39 | the class is skipped iff the parameter is null |
| BasicContainer.BasicContainerTest.ResourceUri | src/main/java/org/w3/ldp/testsuite/test/BasicContainerTest.java:88-90 | returns the stored parameter unchanged |
| BasicContainer.BlankParameterPassesGuardOnly | src/main/java/org/w3/ldp/testsuite/test/BasicContainerTest.java:35 | a blank parameter passes this guard and is the resource URI, while the Non-RDF Source resolver treats it as unconfigured |
| BasicContainer.LinkHeaderTestPasses | src/main/java/org/w3/ldp/testsuite/test/BasicContainerTest.java:54-62 | the Link-header test passes iff the GET returned 200 and (`ldp:BasicContainer`, type) is among its links |
| BasicContainer.OnlyBasicTypeLinkPasses | src/main/java/org/w3/ldp/testsuite/test/BasicContainerTest.java:54-62 | with one type link, a 200 reply passes iff that link names `ldp:BasicContainer` |
| BasicContainer.ContainerTypeTestPasses | src/main/java/org/w3/ldp/testsuite/test/BasicContainerTest.java:77-84 | the type test passes iff the graph holds (`basicContainer`, rdf:type, ldp:BasicContainer), and then `basicContainer` has some rdf:type |
| BasicContainer.TypeOfOtherSubjectFails | src/main/java/org/w3/ldp/testsuite/test/BasicContainerTest.java:77-84 | the type test needs (`basicContainer`, rdf:type, ldp:BasicContainer) about that exact URI; the same statement about another URI fails |
| BasicContainer.ContainerTypeTestMonotone | src/main/java/org/w3/ldp/testsuite/test/BasicContainerTest.java:77-84 | a passing graph still passes with more statements |
| MemberResource.ResolveMember | src/main/java/org/w3/ldp/testsuite/test/MemberResourceTest.java:31-41 | a non-null `memberResource` is adopted whatever else is set; skip iff all four are null; otherwise the result is a configured container to provision in, the direct one when present |
| MemberResource.ResolveMemberFollowsPriority | src/main/java/org/w3/ldp/testsuite/test/MemberResourceTest.java:33-40 | without a resource, the container is the first non-null in direct, indirect, basic order |
| MemberResource.ProvisioningBody | src/main/java/org/w3/ldp/testsuite/test/MemberResourceTest.java:43-47 | the POST body is the graph read from `memberTtl` when there is one, else the default model |
| MemberResource.SetupRequests | src/main/java/org/w3/ldp/testsuite/test/MemberResourceTest.java:43-52 | construction issues at most one request, a Turtle POST, exactly when no resource was given and some container is configured; it goes to the container the resolution chose, and its body is the fixture graph when there is one, else the default model |
| MemberResource.Setup | src/main/java/org/w3/ldp/testsuite/test/MemberResourceTest.java:31-54 | a given resource leaves `container` null; a provisioned one has `container` set, status 201 and the resource is the `Location`; otherwise the POST is rejected or the class skipped |
| MemberResource.Teardown | src/main/java/org/w3/ldp/testsuite/test/MemberResourceTest.java:64-69 | one DELETE of the resource iff `container` is set, none otherwise |
| MemberResource.GivenResourceUntouched | src/main/java/org/w3/ldp/testsuite/test/MemberResourceTest.java:31-32 | with a given resource the fixture issues no request at all |
| MemberResource.OnlyProvisionedResourceDeleted | src/main/java/org/w3/ldp/testsuite/test/MemberResourceTest.java:43-69 | at most one POST, always first; a DELETE only of the `Location` that POST returned with 201 |
| MemberResource.ProvisionedResourceDeletedOnce | src/main/java/org/w3/ldp/testsuite/test/MemberResourceTest.java:43-68 | with only containers configured and a 201 reply, the lifecycle is one POST to the chosen container followed by exactly one DELETE of the `Location` |
| MemberResource.MemberResourceTest.Create | src/main/java/org/w3/ldp/testsuite/test/MemberResourceTest.java:26-56 | the constructor issues exactly the setup requests and succeeds iff the specification does, with its fields equal to the specified state |
| MemberResource.MemberResourceTest.ResourceUri | src/main/java/org/w3/ldp/testsuite/test/MemberResourceTest.java:59-61 | returns `memberResource` |
| MemberResource.MemberResourceTest.DeleteTestResource | src/main/java/org/w3/ldp/testsuite/test/MemberResourceTest.java:63-69 | issues exactly the teardown requests of the current state and changes no field |
| MemberResource.RunFixture | src/main/java/org/w3/ldp/testsuite/test/MemberResourceTest.java:26-69 | construction followed by teardown issues exactly the lifecycle's requests |

## Left out

- HTTP traffic through RestAssured: responses are inputs, and only `MemberResourceTest`'s POST and DELETE are recorded as requests.
- The Non-RDF Source POST of the PNG (NonRDFSourceTest.java lines 86-95, and its copies at 121-130, 172-181, 220-229, 282-291, 329-338): its target container, `Slug: test` header, `image/png` content type and bytes are not recorded as a request; only its response is an input to `NonRdfSource.PostResourcePasses`.
- The GET requests are not recorded either: of the container (NonRDFSourceTest.java lines 136-143), of `nr` (189-197, 236-244, 249-257, 297-302, 344-349), of `rs` (354-362) and of `basicContainer` (BasicContainerTest.java lines 54-56 and the `getAsModel` fetch at 77). Their responses are inputs.
- Expectations on those GETs: `BasicContainer.LinkHeaderTestPasses` keeps the expected 200 of BasicContainerTest.java line 55, and the POST checks keep their 201 and `Location` expectations; the other GET status expectations (NonRDFSourceTest.java lines 140, 193, 240, 253, 299, 346, 358) and the `Content-Type` and `ETag` expectations (`HeaderMatchers`) are not modelled.
- The MD5 comparison of the posted and fetched PNG (NonRDFSourceTest.java lines 188-199 and 248-259): a digest over server bytes.
- RDF parsing and serialisation (`RdfObjectMapper`, Turtle): a parsed body is a set of triples given as input. The metadata model parsed at line 245 is never checked by the source, so nothing of it is modelled.
- `RandomStringUtils.randomAlphabetic(16)`: the segment is an input required to be sixteen ASCII letters.
- `UriBuilder.path`: modelled as adding one '/'-separated segment; percent-encoding, query strings, fragments and an empty base path are not modelled.
- Superclass helpers not part of this model: `containsLinkHeader` (modelled as exact membership of the pair), the `Link` header parser, `readModel` (its result is an optional graph input), `getDefaultModel` (its graph is an input), `buildBaseRequestSpecification` (the `HttpClient`), `getAsModel` (a graph input), and the `auth` parameter.
- The repeated `ldp:Container` assertion at line 147 is the same as line 146; the model checks it once.
- The GET of the associated LDP-RS at lines 354-362 has only status, content-type and `ETag` expectations, so it is left out with them.
- `Text.IsWhitespace` omits U+180E, which older Java versions treat as whitespace and newer ones do not.
- The outcome of the teardown DELETE is not read by the source, so it is not modelled.
- TestNG and `@SpecTest` annotations, groups, descriptions and messages.
