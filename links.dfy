/**
 * `Link` header values as (target URI, relation type) pairs, and the
 * containment query the checks make on them. Targets and relations are
 * compared exactly; URIs are not normalised.
 */
module Links {

  datatype Link = Link(target: string, rel: string)

  /** `containsLinkHeader(target, rel, links)`: some link has exactly this target and relation. */
  function HasLink(links: seq<Link>, target: string, rel: string): (h: bool)
    ensures h <==> Link(target, rel) in links
  {
    exists i :: 0 <= i < |links| && links[i].target == target && links[i].rel == rel
  }

  /** The links of a response, forgetting their order and repetitions. */
  function LinkSet(links: seq<Link>): (s: set<Link>)
    ensures forall l :: l in s <==> l in links
  {
    set i | 0 <= i < |links| :: links[i]
  }

  /** Containment is membership of the pair in the set of links. */
  lemma HasLinkIffMember(links: seq<Link>, target: string, rel: string)
    ensures HasLink(links, target, rel) <==> Link(target, rel) in LinkSet(links)
  {
    if HasLink(links, target, rel) {
      var i :| 0 <= i < |links| && links[i].target == target && links[i].rel == rel;
      assert links[i] == Link(target, rel);
    }
  }

  /** The order of `Link` values, and their repetition, never changes a verdict. */
  lemma HasLinkIgnoresOrder(l1: seq<Link>, l2: seq<Link>, target: string, rel: string)
    requires LinkSet(l1) == LinkSet(l2)
    ensures HasLink(l1, target, rel) <==> HasLink(l2, target, rel)
  {
  }

  /** Several `Link` header lines read as one stream: a link is in the whole iff it is in a part. */
  lemma HasLinkConcat(l1: seq<Link>, l2: seq<Link>, target: string, rel: string)
    ensures HasLink(l1 + l2, target, rel) <==> HasLink(l1, target, rel) || HasLink(l2, target, rel)
  {
  }

  /** No link is found among no links. */
  lemma HasLinkEmpty(target: string, rel: string)
    ensures !HasLink([], target, rel)
  {
  }
}
