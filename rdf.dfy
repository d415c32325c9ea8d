/**
 * A parsed RDF response body, reduced to what the checks ask of it: a set of
 * (subject, predicate, object) statements answering existence queries.
 */
module Rdf {

  datatype Term = Iri(iri: string) | Blank(id: string) | Literal(lexical: string)

  datatype Triple = Triple(subject: Term, property: string, value: Term)

  type Graph = set<Triple>

  /** `model.contains(resource(s), p, o)`: the exact statement is in the graph. */
  function HasStatement(g: Graph, s: string, p: string, o: Term): (h: bool)
    ensures h ==> HasProperty(g, s, p)
  {
    Triple(Iri(s), p, o) in g
  }

  /** `model.contains(resource(s), p)`: some statement gives `s` the property `p`, whatever its value. */
  function HasProperty(g: Graph, s: string, p: string): (h: bool)
    ensures (exists o :: Triple(Iri(s), p, o) in g) ==> h
    ensures g == {} ==> !h
  {
    exists t :: t in g && t.subject == Iri(s) && t.property == p
  }

  /** A statement about `s` with predicate `p` is exactly what `HasProperty` looks for. */
  lemma HasPropertyIffSomeStatement(g: Graph, s: string, p: string)
    ensures HasProperty(g, s, p) <==> exists o :: HasStatement(g, s, p, o)
  {
    if HasProperty(g, s, p) {
      var t :| t in g && t.subject == Iri(s) && t.property == p;
      assert HasStatement(g, s, p, t.value);
    }
  }

  /** Both queries only grow with the graph: more statements never make one false. */
  lemma QueriesMonotone(g1: Graph, g2: Graph, s: string, p: string, o: Term)
    requires g1 <= g2
    ensures HasStatement(g1, s, p, o) ==> HasStatement(g2, s, p, o)
    ensures HasProperty(g1, s, p) ==> HasProperty(g2, s, p)
  {
  }
}
