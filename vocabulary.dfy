/**
 * The TOP ontology-versioning vocabulary: its namespace, the properties a rendered
 * change set uses (and the three it declares but never uses), and the ten change kinds.
 */
module Vocabulary {
  import opened Wrappers

  type Iri = string

  const NsChanges: Iri := "https://top.smith.care/terminology/changes#"

  const HasChange: Iri := NsChanges + "hasChange"
  const NewTerm: Iri := NsChanges + "newTerm"
  const OldTerm: Iri := NsChanges + "oldTerm"
  const NewLabel: Iri := NsChanges + "newLabel"
  const OldLabel: Iri := NsChanges + "oldLabel"
  const AnnotationProperty: Iri := NsChanges + "annotationProperty"
  const AnnotationValue: Iri := NsChanges + "annotationValue"
  const AnnotationDatatype: Iri := NsChanges + "annotationDatatype"
  /** The prefixed name `v:hasSuccessorVersion` resolved against the `v` namespace. */
  const HasSuccessorVersion: Iri := NsChanges + "hasSuccessorVersion"

  const RdfType: Iri := "http://www.w3.org/1999/02/22-rdf-syntax-ns#type"
  const RdfLangString: Iri := "http://www.w3.org/1999/02/22-rdf-syntax-ns#langString"
  const OwlThing: Iri := "http://www.w3.org/2002/07/owl#Thing"
  const OwlNothing: Iri := "http://www.w3.org/2002/07/owl#Nothing"

  /** The closed set of change-event types (`v:Addition` ... `v:LabelDeletion`). */
  datatype ChangeKind =
    | Addition | Deletion
    | SubTermAddition | SubTermDeletion
    | SuperTermAddition | SuperTermDeletion
    | EquivalenceAddition | EquivalenceDeletion
    | LabelAddition | LabelDeletion

  /** The IRI a prefixed type name such as `v:SubTermAddition` resolves to. */
  function KindIri(k: ChangeKind): (r: Iri)
    ensures |r| > |NsChanges| && r[..|NsChanges|] == NsChanges
  {
    match k
    case Addition => NsChanges + "Addition"
    case Deletion => NsChanges + "Deletion"
    case SubTermAddition => NsChanges + "SubTermAddition"
    case SubTermDeletion => NsChanges + "SubTermDeletion"
    case SuperTermAddition => NsChanges + "SuperTermAddition"
    case SuperTermDeletion => NsChanges + "SuperTermDeletion"
    case EquivalenceAddition => NsChanges + "EquivalenceAddition"
    case EquivalenceDeletion => NsChanges + "EquivalenceDeletion"
    case LabelAddition => NsChanges + "LabelAddition"
    case LabelDeletion => NsChanges + "LabelDeletion"
  }

  /** Reads a type IRI back as a change kind; None for any IRI outside the closed set. */
  function KindOf(iri: Iri): Option<ChangeKind>
  {
    if |iri| < |NsChanges| || iri[..|NsChanges|] != NsChanges then None
    else
      var name := iri[|NsChanges|..];
      if name == "Addition" then Some(Addition)
      else if name == "Deletion" then Some(Deletion)
      else if name == "SubTermAddition" then Some(SubTermAddition)
      else if name == "SubTermDeletion" then Some(SubTermDeletion)
      else if name == "SuperTermAddition" then Some(SuperTermAddition)
      else if name == "SuperTermDeletion" then Some(SuperTermDeletion)
      else if name == "EquivalenceAddition" then Some(EquivalenceAddition)
      else if name == "EquivalenceDeletion" then Some(EquivalenceDeletion)
      else if name == "LabelAddition" then Some(LabelAddition)
      else if name == "LabelDeletion" then Some(LabelDeletion)
      else None
  }

  /** Every kind's IRI lies in the vocabulary namespace and reads back as that kind. */
  lemma KindRoundTrip(k: ChangeKind)
    ensures |KindIri(k)| > |NsChanges| && KindIri(k)[..|NsChanges|] == NsChanges
    ensures KindOf(KindIri(k)) == Some(k)
  {
    var name := KindIri(k)[|NsChanges|..];
    assert KindIri(k) == NsChanges + name;
    assert KindIri(k)[..|NsChanges|] == NsChanges;
  }

  /** Distinct kinds are distinct type IRIs, so a type statement names exactly one kind. */
  lemma KindIriInjective(j: ChangeKind, k: ChangeKind)
    requires KindIri(j) == KindIri(k)
    ensures j == k
  {
    KindRoundTrip(j);
    KindRoundTrip(k);
  }

  /** The properties an event node carries besides its type. */
  predicate PayloadProperty(p: Iri)
  {
    p == NewTerm || p == OldTerm || p == AnnotationProperty || p == AnnotationValue
  }

  /** Every property the renderer emits: the succession link, `hasChange`, `rdf:type` and the payload properties. */
  predicate EmittedProperty(p: Iri)
  {
    p == HasSuccessorVersion || p == HasChange || p == RdfType || PayloadProperty(p)
  }

  /**
   * The three declared-but-unused properties differ from every emitted one, and `hasChange`,
   * `rdf:type` and the succession link differ from each other and from the payload properties.
   */
  lemma VocabularyDistinct()
    ensures forall p :: EmittedProperty(p) ==> p != NewLabel && p != OldLabel && p != AnnotationDatatype
    ensures RdfType != HasChange && HasSuccessorVersion != HasChange && HasSuccessorVersion != RdfType
    ensures forall p :: PayloadProperty(p) ==> p != HasChange && p != RdfType && p != HasSuccessorVersion
    ensures NewTerm != OldTerm && AnnotationProperty != AnnotationValue
  {
    assert |NsChanges| == 43;
    assert AnnotationProperty[53] == 'P' && AnnotationDatatype[53] == 'D' && AnnotationValue[53] == 'V';
    assert NewTerm[43] == 'n' && OldTerm[43] == 'o';
  }

  /**
   * The remaining pairs: a term property (`newTerm`, `oldTerm`) is never a label property
   * (`annotationProperty`, `annotationValue`), so a term event is told from a label event by its
   * payload property, and the three unused properties are pairwise apart.
   */
  lemma PropertiesPairwiseApart()
    ensures NewTerm != AnnotationProperty && NewTerm != AnnotationValue
    ensures OldTerm != AnnotationProperty && OldTerm != AnnotationValue
    ensures NewLabel != OldLabel && NewLabel != AnnotationDatatype && OldLabel != AnnotationDatatype
  {
    assert |NsChanges| == 43;
    assert NewTerm[43] == 'n' && OldTerm[43] == 'o' && AnnotationProperty[43] == 'a' && AnnotationValue[43] == 'a';
    assert NewLabel[43] == 'n' && OldLabel[43] == 'o' && AnnotationDatatype[43] == 'a';
  }
}
