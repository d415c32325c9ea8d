/** The RDF, Dublin Core and LDP vocabulary terms the core checks for, and the three container kinds. */
module Vocabulary {

  const LdpNamespace: string := "http://www.w3.org/ns/ldp#"
  const LdpResource: string := LdpNamespace + "Resource"
  const LdpContainer: string := LdpNamespace + "Container"
  const LdpBasicContainer: string := LdpNamespace + "BasicContainer"
  const LdpDirectContainer: string := LdpNamespace + "DirectContainer"
  const LdpIndirectContainer: string := LdpNamespace + "IndirectContainer"
  const LdpNonRdfSource: string := LdpNamespace + "NonRDFSource"
  const LdpContains: string := LdpNamespace + "contains"

  const RdfType: string := "http://www.w3.org/1999/02/22-rdf-syntax-ns#type"
  const DctermsModified: string := "http://purl.org/dc/terms/modified"

  /** Link relation types used in `Link` header checks. */
  const LinkRelType: string := "type"
  const LinkRelDescribedBy: string := "describedby"

  const TextTurtle: string := "text/turtle"

  /** The container variants a server may expose. */
  datatype ContainerKind = Basic | Direct | Indirect {

    /** The `ldp:` class a container of this kind advertises as its type. */
    function TypeUri(): (uri: string)
      ensures |uri| > |LdpNamespace| && uri[..|LdpNamespace|] == LdpNamespace
    {
      match this
      case Basic => LdpBasicContainer
      case Direct => LdpDirectContainer
      case Indirect => LdpIndirectContainer
    }
  }

  /** Distinct kinds advertise distinct types, so a type link identifies the kind. */
  lemma TypeUriInjective(k1: ContainerKind, k2: ContainerKind)
    ensures k1.TypeUri() == k2.TypeUri() ==> k1 == k2
  {
  }

  /** No container type is the non-RDF-source type. */
  lemma TypeUriIsNotNonRdfSource(k: ContainerKind)
    ensures k.TypeUri() != LdpNonRdfSource
  {
    var n := |LdpNamespace|;
    assert LdpNonRdfSource[n] == 'N';
    assert k.TypeUri()[n] in {'B', 'D', 'I'};
  }
}
