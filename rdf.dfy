/**
 * The fragment of the RDF 1.1 data model the renderer produces: IRIs, blank nodes,
 * literals (section 3.3 of RDF 1.1 Concepts and Abstract Syntax) and quads in a
 * dataset with a default graph and named graphs (section 4 of the same document).
 */
module Rdf {
  import opened Vocabulary

  /** A literal is either language-tagged (its datatype is then rdf:langString) or datatype-tagged. */
  datatype Literal =
    | LangLit(text: string, lang: string)
    | TypedLit(text: string, datatypeIri: Iri)

  /** Well-formed per RDF 1.1: a language tag is non-empty, and only a language-tagged literal has datatype rdf:langString. */
  predicate WellFormedLiteral(l: Literal)
  {
    match l
    case LangLit(_, lang) => lang != ""
    case TypedLit(_, dt) => dt != RdfLangString
  }

  /** A blank node is identified only by the counter value that created it. */
  datatype Term = IriTerm(iri: Iri) | Blank(id: nat) | Lit(literal: Literal)

  datatype Graph = DefaultGraph | NamedGraph(name: Iri)

  /** A statement (subject, predicate, object) placed in one graph of the dataset. */
  datatype Quad = Quad(s: Term, p: Iri, o: Term, g: Graph)
}
