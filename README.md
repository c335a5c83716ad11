# Ontology diff renderers, modelled in Dafny

This project models the two writers that turn an ontology change set into output. The change set lists the new, deleted and changed classes between two versions of an OWL ontology.

* **The RDF renderer** is `TopVersionOntologyDiffRDFRenderer.writeDiffToFile`. It builds an RDF dataset:
  * in the default graph, the statement `o1: v:hasSuccessorVersion o2:`;
  * in the named graph `o2:` of the newer version, one fresh blank node per detected change. The node hangs off its class by `v:hasChange`, is typed with one of ten change kinds, and carries its payload: `v:newTerm`/`v:oldTerm`, or `v:annotationProperty` and `v:annotationValue`.

  SubClassOf axioms that mention neither end as the class produce a warning instead.
* **The text writer** is `OntologyFileWriter`. It writes a plain-text summary in three parts:
  * a header with the class counts;
  * the axiom and annotation totals over the changed classes;
  * one section each for the changed, the new and the deleted classes. Each section holds one block per class, with its labels, its deleted axioms (`- `) and its new axioms (`+ `).

The model has three layers:

* **Specification functions.**
  * `RenderSpec.Events` gives the change events a change set gives rise to, in the source's iteration order.
  * `ChangeEvents.Materialize` gives the statements those events become. Event `i` owns blank node `i`.
  * `RenderSpec.Render` is the whole dataset.
  * `TextReport.ReportLines` is the text summary as a list of lines.
* **Imperative code in the source's own shape.**
  * The renderer's nested `forEach` loops are methods. Each one appends quads to an accumulator and draws blank nodes from a counter: `Renderer.WriteDiff` and the methods it calls.
  * The text writer is a `TextStream` class whose `written` field grows with every `write`: `TextReport.WriteDiffToFile`, `WriteHeader` and `WriteListToFile`.

  Each method is proved equal to the specification function.
* **Lemmas** about the specification functions. They cover:
  * the shape of every event;
  * the dataset's graphs, vocabulary and absence of duplicates;
  * one `hasChange` link and one type per change, counted;
  * the SubClassOf dispatch, the equivalence fan-out and the exact set of warnings;
  * literal round trips;
  * reading the text summary back line by line, and the totals.

Files:
* `wrappers.dfy`: `Option`, and `OrEmpty`, which reads a missing (null) collection as empty.
* `vocabulary.dfy`: the vocabulary.
* `rdf.dfy`: RDF terms and quads.
* `changes.dfy`: the change-set records.
* `change_events.dfy`: events and materialisation.
* `render_spec.dfy`: the renderer's specification.
* `renderer.dfy`: the renderer's methods.
* `materialize_properties.dfy` and `render_properties.dfy`: the lemmas.
* `text_report.dfy`: the text writer.

## Model

| member | source | states |
|---|---|---|
| Vocabulary.VocabularyDistinct | src/main/java/care/smith/top/terminology/codes/versioning/TopVersionOntologyDiffRDFRenderer.java:33-42 | The declared `newLabel`, `oldLabel` and `annotationDatatype` differ from every property that is emitted. `hasChange`, `rdf:type` and `hasSuccessorVersion` differ from each other and from every payload property. `newTerm` differs from `oldTerm`, and `annotationProperty` from `annotationValue`. |
| Vocabulary.PropertiesPairwiseApart | src/main/java/care/smith/top/terminology/codes/versioning/TopVersionOntologyDiffRDFRenderer.java:36-42 | The other pairs: `newTerm` and `oldTerm` each differ from `annotationProperty` and from `annotationValue`, so a term event is told from a label event by its payload property. `newLabel`, `oldLabel` and `annotationDatatype` differ from each other. |
| Vocabulary.KindIri | src/main/java/care/smith/top/terminology/codes/versioning/TopVersionOntologyDiffRDFRenderer.java:33-57 | A change-kind type name such as `v:Addition` resolves to the changes namespace followed by a non-empty name. |
| Vocabulary.KindRoundTrip | src/main/java/care/smith/top/terminology/codes/versioning/TopVersionOntologyDiffRDFRenderer.java:46-57 | Each change-kind type name such as `v:Addition` resolves to an IRI in the `v` namespace, and that IRI reads back as the same kind. |
| Vocabulary.KindIriInjective | src/main/java/care/smith/top/terminology/codes/versioning/TopVersionOntologyDiffRDFRenderer.java:53-65 | Different change kinds are different type IRIs. |
| ChangeEvents.ConformsPayload | src/main/java/care/smith/top/terminology/codes/versioning/TopVersionOntologyDiffRDFRenderer.java:106-118 | A well-shaped event carries at most two payload statements. Their properties are payload properties and differ from each other. |
| ChangeEvents.EventQuads | src/main/java/care/smith/top/terminology/codes/versioning/TopVersionOntologyDiffRDFRenderer.java:76-81 | The statements of one change on blank node `b`: the `hasChange` link from its class, its type, then its payload statements. Its positions are stated by `ChangeEvents.EventQuadsAt`. |
| ChangeEvents.Materialize | src/main/java/care/smith/top/terminology/codes/versioning/TopVersionOntologyDiffRDFRenderer.java:53-58 | The changes' statements in order, the `i`-th change on the fresh blank node `first + i`, as each `createBNode` call draws the next node. Its graphs, nodes and links are stated by `MaterializePlaced` and `MaterializeLinks`. |
| ChangeEvents.EventQuadsAt | src/main/java/care/smith/top/terminology/codes/versioning/TopVersionOntologyDiffRDFRenderer.java:76-81 | One change, statement by statement: `class hasChange b`, then `b rdf:type kind`, then the payload statements on `b`. |
| RenderSpec.ClassListEvents | src/main/java/care/smith/top/terminology/codes/versioning/TopVersionOntologyDiffRDFRenderer.java:53-65 | There is exactly one event per new (or deleted) class. |
| RenderSpec.AnnotationListEvents | src/main/java/care/smith/top/terminology/codes/versioning/TopVersionOntologyDiffRDFRenderer.java:106-118 | There is exactly one label event per added (or deleted) annotation. |
| RenderSpec.EquivalenceEvents | src/main/java/care/smith/top/terminology/codes/versioning/TopVersionOntologyDiffRDFRenderer.java:93-102 | At most one event per operand. Every event hangs off the class, has the equivalence kind and one `newTerm`/`oldTerm` statement, and never names the class itself, owl:Thing or owl:Nothing. |
| RenderSpec.AxiomEvents | src/main/java/care/smith/top/terminology/codes/versioning/TopVersionOntologyDiffRDFRenderer.java:72-103 | A SubClassOf axiom gives one event when it mentions the class at either end and none otherwise. As written, the related term is read from the end that matched, so it is always the class itself. Other axiom types give no event, and every event hangs off the class. |
| RenderSpec.AxiomWarnings | src/main/java/care/smith/top/terminology/codes/versioning/TopVersionOntologyDiffRDFRenderer.java:90-92 | An axiom gives a warning naming the class and the axiom exactly when it is a SubClassOf axiom that mentions the class at neither end. |
| RenderSpec.LiteralOf | src/main/java/care/smith/top/terminology/codes/versioning/TopVersionOntologyDiffRDFRenderer.java:114-116 | The annotation value keeps its lexical text. It is language-tagged with its language exactly when it has one, and otherwise typed with its own datatype. |
| RenderSpec.AnnotationEvent | src/main/java/care/smith/top/terminology/codes/versioning/TopVersionOntologyDiffRDFRenderer.java:106-117 | The label event of one annotation: `LabelAddition` or `LabelDeletion` on the class, with the property as an IRI and the value as a literal. Its contents are stated by `RenderProperties.AnnotationListEventsAt`. |
| RenderSpec.ClassEvents | src/main/java/care/smith/top/terminology/codes/versioning/TopVersionOntologyDiffRDFRenderer.java:69-167 | The events of one changed class: new axioms, new annotations, deleted axioms, deleted annotations, in that order. Their shape and number are stated by `ClassConform` and `ChangedEventCount`. |
| RenderSpec.Events | src/main/java/care/smith/top/terminology/codes/versioning/TopVersionOntologyDiffRDFRenderer.java:53-168 | The events of a change set: the new classes, then the deleted classes, then the changed classes. Their shape is stated by `EventsConform`. |
| RenderSpec.Render | src/main/java/care/smith/top/terminology/codes/versioning/TopVersionOntologyDiffRDFRenderer.java:45-168 | The dataset: the succession statement, then the statements of every event on consecutive fresh nodes in the newer version's graph. Its properties are stated by `RenderGraphs`, `RenderLinks` and `HasChangeCount`. |
| Renderer.AddClassList | src/main/java/care/smith/top/terminology/codes/versioning/TopVersionOntologyDiffRDFRenderer.java:53-65 | The new-class (or deleted-class) loop appends exactly the statements of one payload-free event per class and uses one fresh node per class. |
| Renderer.AddEquivalence | src/main/java/care/smith/top/terminology/codes/versioning/TopVersionOntologyDiffRDFRenderer.java:93-102 | The stream over an equivalence axiom's named classes appends the statements of one event per class other than the current one. |
| Renderer.AddAxiom | src/main/java/care/smith/top/terminology/codes/versioning/TopVersionOntologyDiffRDFRenderer.java:72-103 | One axiom appends the statements of its events and yields its warnings, for SubClassOf, EquivalentClasses and every other axiom type. |
| Renderer.AddAxioms | src/main/java/care/smith/top/terminology/codes/versioning/TopVersionOntologyDiffRDFRenderer.java:120-153 | The loop over a class's new (or deleted) axioms appends their statements in order and collects their warnings in order. |
| Renderer.AddAnnotations | src/main/java/care/smith/top/terminology/codes/versioning/TopVersionOntologyDiffRDFRenderer.java:155-167 | The loop over a class's annotations appends one label event's statements per annotation. |
| Renderer.AddChangedClass | src/main/java/care/smith/top/terminology/codes/versioning/TopVersionOntologyDiffRDFRenderer.java:67-168 | For one changed class, the statements come in this order: new axioms, new annotations, deleted axioms, deleted annotations. |
| Renderer.AddChangedClasses | src/main/java/care/smith/top/terminology/codes/versioning/TopVersionOntologyDiffRDFRenderer.java:67-168 | The changed classes' statements and warnings come class after class. |
| Renderer.WriteDiff | src/main/java/care/smith/top/terminology/codes/versioning/TopVersionOntologyDiffRDFRenderer.java:44-169 | The dataset built is exactly `Render(cs)` and the warnings are exactly `Warnings(cs)`. |
| MaterializeProperties.EventQuadsPlaced | src/main/java/care/smith/top/terminology/codes/versioning/TopVersionOntologyDiffRDFRenderer.java:76-81 | All of a change's statements are in the diff graph, sit on its own node and are pairwise different. |
| MaterializeProperties.MaterializePlaced | src/main/java/care/smith/top/terminology/codes/versioning/TopVersionOntologyDiffRDFRenderer.java:53-168 | For any sequence of well-shaped events, every statement is in the graph, uses an emitted property, lies on one of the nodes handed out, and no statement repeats. |
| MaterializeProperties.EventLinks | src/main/java/care/smith/top/terminology/codes/versioning/TopVersionOntologyDiffRDFRenderer.java:54-57 | A change has exactly one `hasChange` link, from its class to its node, and exactly one type statement. |
| MaterializeProperties.MaterializeLinks | src/main/java/care/smith/top/terminology/codes/versioning/TopVersionOntologyDiffRDFRenderer.java:53-168 | Event `i` is the `i`-th `hasChange` link, into node `first + i`, and the `i`-th type statement, giving that node the event's kind. |
| RenderProperties.EquivalenceConform | src/main/java/care/smith/top/terminology/codes/versioning/TopVersionOntologyDiffRDFRenderer.java:93-102 | Equivalence events carry exactly one related-term statement that names an IRI. |
| RenderProperties.AxiomConform | src/main/java/care/smith/top/terminology/codes/versioning/TopVersionOntologyDiffRDFRenderer.java:72-103 | Every event an axiom yields has the payload its kind calls for. |
| RenderProperties.AxiomListConform | src/main/java/care/smith/top/terminology/codes/versioning/TopVersionOntologyDiffRDFRenderer.java:71-104 | The same holds for all the axioms of a class. |
| RenderProperties.AnnotationListConform | src/main/java/care/smith/top/terminology/codes/versioning/TopVersionOntologyDiffRDFRenderer.java:106-118 | A label event carries the annotation property as an IRI and the value as a literal. |
| RenderProperties.ClassConform | src/main/java/care/smith/top/terminology/codes/versioning/TopVersionOntologyDiffRDFRenderer.java:67-168 | Every event of a changed class is well shaped. |
| RenderProperties.ChangedConform | src/main/java/care/smith/top/terminology/codes/versioning/TopVersionOntologyDiffRDFRenderer.java:67-168 | Every event of all the changed classes is well shaped. |
| RenderProperties.ClassListEventsAt | src/main/java/care/smith/top/terminology/codes/versioning/TopVersionOntologyDiffRDFRenderer.java:53-65 | Event `i` of the new (or deleted) classes belongs to class `i`, has the list's kind and carries no payload. |
| RenderProperties.ClassListConform | src/main/java/care/smith/top/terminology/codes/versioning/TopVersionOntologyDiffRDFRenderer.java:60-65 | Addition and deletion events carry no payload. |
| RenderProperties.EventsConform | src/main/java/care/smith/top/terminology/codes/versioning/TopVersionOntologyDiffRDFRenderer.java:53-168 | Every event of a renderable change set is well shaped. |
| RenderProperties.RenderGraphs | src/main/java/care/smith/top/terminology/codes/versioning/TopVersionOntologyDiffRDFRenderer.java:45-51 | The first statement is `o1: v:hasSuccessorVersion o2:` in the default graph, with `o1:`/`o2:` being the version IRI plus `#`. Every other statement is in the `o2:` graph, lies on the nodes `0..|events|-1` and is not a succession link. No statement repeats, so the sequence is the set of statements the RDF model holds. `newLabel`, `oldLabel` and `annotationDatatype` never occur. |
| RenderProperties.RenderLinks | src/main/java/care/smith/top/terminology/codes/versioning/TopVersionOntologyDiffRDFRenderer.java:53-168 | In the whole dataset, change `i` is the `i`-th `hasChange` link, from its class to node `i`, and the `i`-th type statement, giving node `i` its kind. |
| RenderProperties.SubClassDispatch | src/main/java/care/smith/top/terminology/codes/versioning/TopVersionOntologyDiffRDFRenderer.java:72-92 | A SubClassOf axiom yields exactly one event or one warning. The superclass test wins and gives a sub-term change; otherwise a matching subclass gives a super-term change. A warning comes exactly when neither end is the class. As written, the recorded term is always the class itself. |
| RenderProperties.OtherAxiomSilent | src/main/java/care/smith/top/terminology/codes/versioning/TopVersionOntologyDiffRDFRenderer.java:93-103 | Axioms of any other type yield no statement and no warning. |
| RenderProperties.OtherNamed | src/main/java/care/smith/top/terminology/codes/versioning/TopVersionOntologyDiffRDFRenderer.java:95 | The filtered named classes are the named operands other than the current class, owl:Thing and owl:Nothing, which `getNamedClasses()` leaves out. Every such operand is among them. |
| RenderProperties.BuiltInOperandsSilent | src/main/java/care/smith/top/terminology/codes/versioning/TopVersionOntologyDiffRDFRenderer.java:93-102 | An equivalence between the class, owl:Thing and owl:Nothing gives no event, because the built-in classes are never named classes of the axiom. |
| RenderProperties.EquivalenceFanOut | src/main/java/care/smith/top/terminology/codes/versioning/TopVersionOntologyDiffRDFRenderer.java:93-102 | An equivalence axiom yields one event per other named operand, in order. Each event records that operand as the related term, with the addition or deletion kind and property. |
| RenderProperties.EquivalenceMembers | src/main/java/care/smith/top/terminology/codes/versioning/TopVersionOntologyDiffRDFRenderer.java:142-151 | Both directions: every equivalence event names another named operand, and every other named operand is named by an event. |
| RenderProperties.AxiomEventCount | src/main/java/care/smith/top/terminology/codes/versioning/TopVersionOntologyDiffRDFRenderer.java:72-102 | The number of events from an axiom is 1 for a matched SubClassOf, the number of other named operands for an equivalence, and 0 otherwise. |
| RenderProperties.AxiomListEventCount | src/main/java/care/smith/top/terminology/codes/versioning/TopVersionOntologyDiffRDFRenderer.java:71-104 | A class's axioms yield as many events as their counts add up to. |
| RenderProperties.ChangedEventCount | src/main/java/care/smith/top/terminology/codes/versioning/TopVersionOntologyDiffRDFRenderer.java:67-168 | The changed classes yield as many events as their axiom and annotation counts add up to. |
| RenderProperties.HasChangeCount | src/main/java/care/smith/top/terminology/codes/versioning/TopVersionOntologyDiffRDFRenderer.java:53-168 | The number of `hasChange` statements, and of type statements, is \|new\| + \|deleted\| plus, for each changed class, its matched SubClassOf axioms, other equivalent classes and annotations. |
| RenderProperties.AxiomListWarningsExact | src/main/java/care/smith/top/terminology/codes/versioning/TopVersionOntologyDiffRDFRenderer.java:90-91 | Both directions: a class's axioms warn exactly about its SubClassOf axioms that mention the class at neither end, and each warning names that class. |
| RenderProperties.ClassWarningsExact | src/main/java/care/smith/top/terminology/codes/versioning/TopVersionOntologyDiffRDFRenderer.java:139-141 | A changed class warns about an axiom exactly when the axiom is among its new or deleted axioms and is unmatched. |
| RenderProperties.AnnotationListEventsAt | src/main/java/care/smith/top/terminology/codes/versioning/TopVersionOntologyDiffRDFRenderer.java:106-118 | Label event `i` carries annotation `i`'s property IRI and its value as a literal. |
| RenderProperties.LiteralRoundTrip | src/main/java/care/smith/top/terminology/codes/versioning/TopVersionOntologyDiffRDFRenderer.java:114-116 | An OWL literal whose language and datatype agree becomes a well-formed RDF literal: language-tagged exactly when it has a language, otherwise typed with its datatype. It is recovered from that RDF literal. |
| RenderProperties.LiteralRoundTripBack | src/main/java/care/smith/top/terminology/codes/versioning/TopVersionOntologyDiffRDFRenderer.java:163-165 | Every well-formed RDF literal is the image of the consistent OWL literal read back from it. |
| RenderProperties.IntendedAxiomEvents | src/main/java/care/smith/top/terminology/codes/versioning/TopVersionOntologyDiffRDFRenderer.java:72-103 | The corrected dispatch takes the related term from the other end of a SubClassOf axiom. A SubClassOf axiom gives at most one event, and none when it does not mention the class. The equivalence fan-out and other axiom types are unchanged. |
| RenderProperties.IntendedOnlyPayload | src/main/java/care/smith/top/terminology/codes/versioning/TopVersionOntologyDiffRDFRenderer.java:72-103 | On every axiom, the corrected and the as-written dispatch give as many events, with the same subjects, kinds and payload properties. Outside SubClassOf they give the same events, so the correction changes only the related term. |
| RenderProperties.IntendedRoundTrip | src/main/java/care/smith/top/terminology/codes/versioning/TopVersionOntologyDiffRDFRenderer.java:121-138 | With the related term taken from the other end, a SubClassOf axiom that mentions the class is recovered from its single event. |
| RenderProperties.AsWrittenLosesSuperclass | src/main/java/care/smith/top/terminology/codes/versioning/TopVersionOntologyDiffRDFRenderer.java:82-89 | As written, `Foo SubClassOf Bar` and `Foo SubClassOf Baz`, seen from Foo, give the same event with related term Foo, so the axiom cannot be read back. The corrected dispatch records Bar. |
| TextReport.SplitUnlines | src/main/java/uk/ac/ebi/efo/bubastis/OntologyFileWriter.java:62-97 | Text written as line-terminated lines splits back into exactly those lines when no line holds a break. |
| TextReport.ReportRoundTrip | src/main/java/uk/ac/ebi/efo/bubastis/OntologyFileWriter.java:34-60 | The summary reads back line by line as the header, then the changed, the new and the deleted classes' sections, in that order. |
| TextReport.Decimal | src/main/java/uk/ac/ebi/efo/bubastis/OntologyFileWriter.java:110-112 | A count is written as a non-empty string of decimal digits. |
| TextReport.DecimalRoundTrip | src/main/java/uk/ac/ebi/efo/bubastis/OntologyFileWriter.java:126-129 | A written count reads back as the same number and has no leading zero. |
| TextReport.BlockLines | src/main/java/uk/ac/ebi/efo/bubastis/OntologyFileWriter.java:70-92 | The lines of one class block. Their positions are stated by `TextReport.BlockLinesAt`. |
| TextReport.BlockLinesAt | src/main/java/uk/ac/ebi/efo/bubastis/OntologyFileWriter.java:72-92 | A class block has the lines `Class: <iri>`, then `Label(s): ` with each label followed by a space, then every deleted-axiom line `- `, then every new-axiom line `+ `, then a blank line. A missing list adds no line. |
| TextReport.SectionLines | src/main/java/uk/ac/ebi/efo/bubastis/OntologyFileWriter.java:62-97 | A section has no lines exactly when its class list is empty. Otherwise it opens with the `################` banner and the heading. |
| TextReport.SumTotals | src/main/java/uk/ac/ebi/efo/bubastis/OntologyFileWriter.java:114-124 | The four totals summed over the changed classes. They are additive by `TextReport.SumTotalsAppend`, and the counting loop computes them by `TextReport.CountTotals`. |
| TextReport.HeaderLines | src/main/java/uk/ac/ebi/efo/bubastis/OntologyFileWriter.java:100-131 | The header is sixteen lines: title, date, both locations, three class counts and four totals, with a lone-space line after the last class count and after each total. |
| TextReport.ReportLines | src/main/java/uk/ac/ebi/efo/bubastis/OntologyFileWriter.java:34-60 | The summary: the header, then the changed, the new and the deleted classes' sections. Reading it back is stated by `TextReport.ReportRoundTrip`. |
| TextReport.SumTotalsAppend | src/main/java/uk/ac/ebi/efo/bubastis/OntologyFileWriter.java:114-124 | The totals of a list of classes are the sums of the totals of its parts. |
| TextReport.CountTotals | src/main/java/uk/ac/ebi/efo/bubastis/OntologyFileWriter.java:114-124 | The counting loop yields the sums of the sizes of the new and deleted axioms and annotations over the changed classes, with a missing collection counted as 0. |
| TextReport.TextStream.constructor | src/main/java/uk/ac/ebi/efo/bubastis/OntologyFileWriter.java:39 | A stream opened without appending starts empty. |
| TextReport.TextStream.Write | src/main/java/uk/ac/ebi/efo/bubastis/OntologyFileWriter.java:65 | Each write appends its text. |
| TextReport.WriteAxiomLines | src/main/java/uk/ac/ebi/efo/bubastis/OntologyFileWriter.java:81-90 | A present axiom-label collection writes one prefixed line per label. A missing one writes nothing. |
| TextReport.WriteClassBlock | src/main/java/uk/ac/ebi/efo/bubastis/OntologyFileWriter.java:70-92 | One loop iteration writes exactly the class's block. |
| TextReport.WriteListToFile | src/main/java/uk/ac/ebi/efo/bubastis/OntologyFileWriter.java:62-97 | A section writes its banner and one block per class, or nothing at all for an empty list. |
| TextReport.WriteHeader | src/main/java/uk/ac/ebi/efo/bubastis/OntologyFileWriter.java:100-131 | The header writes the title, the date, both locations, the three class counts and the four totals over the changed classes, each on its own line, with the lone-space lines the source writes. |
| TextReport.WriteDiffToFile | src/main/java/uk/ac/ebi/efo/bubastis/OntologyFileWriter.java:34-60 | A freshly opened stream ends up holding exactly the summary: the header, then the changed, the new and the deleted classes. |

## Left out

- Serialising the dataset (`Rio.write`, `FileOutputStream` and the exception wrapping at TopVersionOntologyDiffRDFRenderer.java:170-178) and opening and closing the text file (OntologyFileWriter.java:38-39, 57). These are I/O. The dataset is the quad sequence `Render(cs)`, and the text file is a `TextStream`.
- The namespace prefixes `v`, `o1` and `o2` are resolved in the model: `v:` names are full IRIs and `o1:`/`o2:` are the version IRI plus `#`. The prefix table written to the output is a serialisation detail.
- The model's blank nodes are counter values. What the RDF4J value factory actually generates is not modelled.
- An RDF model is a set of statements. The model keeps the statements in order and proves that none repeats (`RenderProperties.RenderGraphs`).
- Java `Set`s of axioms, annotations and labels are sequences in iteration order. Their absence of duplicates is not assumed or used.
- RenderSpec.EquivalenceEvents: the equivalence fan-out follows the order of the axiom's operand sequence. The order in which the `Set` returned by `getNamedClasses()` is iterated is not modelled, and neither is its removal of a class named twice. owl:Thing and owl:Nothing are recognised by their IRIs.
- The text printed to standard error for an unmatched SubClassOf axiom is not modelled. It becomes a `Warning` value naming the class and the axiom.
- The calls `Optional.get()` on the version IRIs, `asOWLClass()` on SubClassOf ends and `asLiteral().get()` on annotation values throw on bad input. Their failure paths are preconditions: `Renderable`, `SubClassEndsNamed` and `LiteralValued`.
- The text writer dereferences the three class lists without a null check, so a null list throws there. That failure path is the precondition `Listed`.
- The current date in the header is the parameter `date`. The clock and `SimpleDateFormat` are not modelled.
- TextReport.CountTotals: the counters are unbounded `nat`s. The source's `int` counters would wrap only past 2^31 - 1 axioms or annotations, which is not modelled.
- TextReport.Decimal: only non-negative numbers are rendered. All counts the summary prints are sizes or non-negative counts.
- `BubastisRunner` and the ontology-comparison engine that fills the change set are not part of this model. The change set is an input record. Its getters `getLabelsAsString`, `getNewClassAxiomsAsLabels` and `getDeletedClassAxiomsAsLabels` are fields of that record.
- `OntologyFileWriter`'s constructors and its unused `filePath` field are not modelled.

## Findings

| source | as written | input that shows it | evidently intended | confidence | as-written member | corrected member |
|---|---|---|---|---|---|---|
| src/main/java/care/smith/top/terminology/codes/versioning/TopVersionOntologyDiffRDFRenderer.java:81 | The related term of a SubClassOf change is read from the end that matched, which is the current class itself. The same happens at lines 89, 130 and 138. | Changed class `ex:Foo` with the new axiom `ex:Foo SubClassOf ex:Bar` gives a `v:SuperTermAddition` with `v:newTerm ex:Foo`. | `v:newTerm ex:Bar`, the other end, as the comments at lines 75 and 83 describe. | high; not executed | RenderProperties.AsWrittenLosesSuperclass | RenderProperties.IntendedRoundTrip |

The renderer model (`RenderSpec.AxiomEvents`, `Renderer.AddAxiom`) keeps the code's behaviour, so the dataset properties above describe what the program actually writes. The corrected dispatch is `RenderProperties.IntendedAxiomEvents`.
