/**
 * The change set the ontology-comparison engine hands to the writers
 * (`OntologyChangesBean` and its `OWLClassAxiomsInfo` entries), as immutable input.
 * A field the engine may leave null is an Option; a Java Set is the sequence of
 * its elements in iteration order.
 */
module Changes {
  import opened Wrappers
  import opened Vocabulary

  /** An OWL class expression: a named class or an anonymous (complex) one. */
  datatype ClassExpression = NamedClass(iri: Iri) | AnonymousClass

  /** The class axioms the renderer distinguishes; every other axiom type is OtherAxiom. */
  datatype Axiom =
    | SubClassOf(sub: ClassExpression, sup: ClassExpression)
    | EquivalentClasses(operands: seq<ClassExpression>)
    | OtherAxiom

  /** An OWL literal; an empty `lang` means the literal has no language tag. */
  datatype OwlLiteral = OwlLiteral(text: string, lang: string, datatypeIri: Iri)

  datatype OwlAnnotationValue = LiteralValue(literal: OwlLiteral) | IriValue(iri: Iri) | AnonymousValue

  datatype Annotation = Annotation(property: Iri, value: OwlAnnotationValue)

  /** What the engine reports about one class. */
  datatype ClassAxiomsInfo = ClassAxiomsInfo(
    iri: Iri,
    labels: seq<string>,
    newAxioms: Option<seq<Axiom>>,
    deletedAxioms: Option<seq<Axiom>>,
    newRawAnnotations: Option<seq<Annotation>>,
    deletedRawAnnotations: Option<seq<Annotation>>,
    newAxiomLabels: Option<seq<string>>,
    deletedAxiomLabels: Option<seq<string>>)

  /** The change set for one (older, newer) pair of ontology versions. */
  datatype OntologyChanges = OntologyChanges(
    ontology1Location: string,
    ontology2Location: string,
    version1: Option<Iri>,
    version2: Option<Iri>,
    numChangedClasses: nat,
    numNewClasses: nat,
    numDeletedClasses: nat,
    classesWithDifferences: Option<seq<ClassAxiomsInfo>>,
    newClasses: Option<seq<ClassAxiomsInfo>>,
    deletedClasses: Option<seq<ClassAxiomsInfo>>)
}
