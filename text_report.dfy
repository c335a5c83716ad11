/**
 * The plain-text diff summary `OntologyFileWriter` writes: a header with the change counts and
 * the axiom and annotation totals over the changed classes, then the changed, new and deleted
 * classes, each as a section of class blocks. The text is specified as a sequence of lines;
 * the writer appends to an output stream in the source's own pieces.
 */
module TextReport {
  import opened Wrappers
  import opened Changes

  // ---------------------------------------------------------------- lines

  /** Each line followed by a line break. */
  function Unlines(ls: seq<string>): string
  {
    if |ls| == 0 then "" else ls[0] + "\n" + Unlines(ls[1..])
  }

  lemma {:induction false} UnlinesAppend(a: seq<string>, b: seq<string>)
    ensures Unlines(a + b) == Unlines(a) + Unlines(b)
    decreases |a|
  {
    if |a| == 0 {
      assert a + b == b;
    } else {
      assert (a + b)[1..] == a[1..] + b;
      UnlinesAppend(a[1..], b);
    }
  }

  /** Where the first line of `s` ends: at its first line break, or at its end. */
  function LineEnd(s: string): (k: nat)
    ensures k <= |s|
    ensures '\n' !in s[..k]
    ensures k < |s| ==> s[k] == '\n'
    decreases |s|
  {
    if |s| == 0 || s[0] == '\n' then 0
    else
      var k := LineEnd(s[1..]);
      assert s[..k + 1] == [s[0]] + s[1..][..k];
      k + 1
  }

  /** The lines of `s`, without their line breaks; a last line without a break is kept. */
  function SplitLines(s: string): seq<string>
    decreases |s|
  {
    if |s| == 0 then []
    else
      var k := LineEnd(s);
      if k == |s| then [s] else [s[..k]] + SplitLines(s[k + 1..])
  }

  /** No line of `ls` holds a line break of its own. */
  predicate Flat(ls: seq<string>)
  {
    forall l :: l in ls ==> '\n' !in l
  }

  lemma {:induction false} LineEndAt(l: string, rest: string)
    requires '\n' !in l
    ensures LineEnd(l + "\n" + rest) == |l|
    decreases |l|
  {
    if |l| > 0 {
      assert (l + "\n" + rest)[1..] == l[1..] + "\n" + rest;
      assert l[0] in l;
      assert forall c :: c in l[1..] ==> c in l;
      LineEndAt(l[1..], rest);
    }
  }

  /** Splitting the lines back recovers them, as long as none of them holds a line break. */
  lemma {:induction false} SplitUnlines(ls: seq<string>)
    requires Flat(ls)
    ensures SplitLines(Unlines(ls)) == ls
    decreases |ls|
  {
    if |ls| > 0 {
      var l := ls[0];
      var rest := Unlines(ls[1..]);
      assert l in ls;
      assert forall x :: x in ls[1..] ==> x in ls;
      LineEndAt(l, rest);
      var s := l + "\n" + rest;
      assert s[..|l|] == l;
      assert s[|l| + 1..] == rest;
      SplitUnlines(ls[1..]);
      assert ls == [l] + ls[1..];
    }
  }

  lemma NoBreakConcat(a: string, b: string)
    requires '\n' !in a && '\n' !in b
    ensures '\n' !in a + b
  {
    assert forall c :: c in a + b ==> c in a || c in b;
  }

  // ---------------------------------------------------------------- numbers

  /** Java's decimal rendering of a non-negative `int`. */
  function Decimal(n: nat): (s: string)
    ensures |s| >= 1
    ensures forall i :: 0 <= i < |s| ==> '0' <= s[i] <= '9'
    decreases n
  {
    if n < 10 then [('0' as int + n) as char] else Decimal(n / 10) + [('0' as int + n % 10) as char]
  }

  /** The number a string of decimal digits denotes. */
  function DigitsValue(s: string): nat
    requires forall i :: 0 <= i < |s| ==> '0' <= s[i] <= '9'
  {
    if |s| == 0 then 0 else DigitsValue(s[..|s| - 1]) * 10 + (s[|s| - 1] as int - '0' as int)
  }

  /** The counts can be read back from the summary: decimal rendering is reversible and has no leading zero. */
  lemma {:induction false} DecimalRoundTrip(n: nat)
    ensures DigitsValue(Decimal(n)) == n
    ensures Decimal(n)[0] == '0' ==> n == 0
    decreases n
  {
    if n >= 10 {
      var s := Decimal(n);
      DecimalRoundTrip(n / 10);
      assert s[..|s| - 1] == Decimal(n / 10);
    }
  }

  lemma DecimalFlat(n: nat)
    ensures '\n' !in Decimal(n)
  {
    var s := Decimal(n);
    assert forall i :: 0 <= i < |s| ==> s[i] != '\n';
  }

  // ---------------------------------------------------------------- class blocks

  /** Each label followed by one space. */
  function LabelsText(labels: seq<string>): string
  {
    if |labels| == 0 then "" else LabelsText(labels[..|labels| - 1]) + (labels[|labels| - 1] + " ")
  }

  lemma LabelsSnoc(labels: seq<string>, j: nat)
    requires j < |labels|
    ensures LabelsText(labels[..j + 1]) == LabelsText(labels[..j]) + (labels[j] + " ")
  {
    assert labels[..j + 1][..j] == labels[..j];
  }

  lemma {:induction false} LabelsFlat(labels: seq<string>)
    requires Flat(labels)
    ensures '\n' !in LabelsText(labels)
    decreases |labels|
  {
    if |labels| > 0 {
      var n := |labels| - 1;
      assert labels[n] in labels;
      assert forall x :: x in labels[..n] ==> x in labels;
      LabelsFlat(labels[..n]);
      NoBreakConcat(labels[n], " ");
      NoBreakConcat(LabelsText(labels[..n]), labels[n] + " ");
    }
  }

  function Prefixed(prefix: string, xs: seq<string>): seq<string>
  {
    seq(|xs|, i requires 0 <= i < |xs| => prefix + xs[i])
  }

  /** The lines of one class: its IRI, its labels, its deleted axioms, its new axioms, and a blank line. */
  function BlockLines(ci: ClassAxiomsInfo): seq<string>
  {
    ["Class: " + ci.iri] + ["Label(s): " + LabelsText(ci.labels)]
    + Prefixed("- ", OrEmpty(ci.deletedAxiomLabels))
    + Prefixed("+ ", OrEmpty(ci.newAxiomLabels))
    + [""]
  }

  /** Within a block every deleted-axiom line comes before every new-axiom line, and a missing list adds no line. */
  lemma BlockLinesAt(ci: ClassAxiomsInfo)
    ensures |BlockLines(ci)| == 3 + |OrEmpty(ci.deletedAxiomLabels)| + |OrEmpty(ci.newAxiomLabels)|
    ensures BlockLines(ci)[0] == "Class: " + ci.iri
    ensures BlockLines(ci)[1] == "Label(s): " + LabelsText(ci.labels)
    ensures forall k :: 0 <= k < |OrEmpty(ci.deletedAxiomLabels)| ==>
              BlockLines(ci)[2 + k] == "- " + OrEmpty(ci.deletedAxiomLabels)[k]
    ensures forall k :: 0 <= k < |OrEmpty(ci.newAxiomLabels)| ==>
              BlockLines(ci)[2 + |OrEmpty(ci.deletedAxiomLabels)| + k] == "+ " + OrEmpty(ci.newAxiomLabels)[k]
    ensures BlockLines(ci)[|BlockLines(ci)| - 1] == ""
  {
  }

  function BlocksLines(cis: seq<ClassAxiomsInfo>): seq<string>
  {
    if |cis| == 0 then [] else BlocksLines(cis[..|cis| - 1]) + BlockLines(cis[|cis| - 1])
  }

  function BannerLines(heading: string): seq<string>
  {
    ["", "################", heading, ""]
  }

  /** A section: nothing at all for an empty list, otherwise the banner and one block per class. */
  function SectionLines(cis: seq<ClassAxiomsInfo>, heading: string): (ls: seq<string>)
    ensures |ls| == 0 <==> |cis| == 0
    ensures |cis| > 0 ==> |ls| >= 4 && ls[1] == "################" && ls[2] == heading
  {
    if |cis| == 0 then [] else BannerLines(heading) + BlocksLines(cis)
  }

  // ---------------------------------------------------------------- header

  /** The four totals the header reports over the changed classes. */
  datatype Totals = Totals(newAxioms: nat, deletedAxioms: nat, newAnnotations: nat, deletedAnnotations: nat)

  function Plus(a: Totals, b: Totals): Totals
  {
    Totals(a.newAxioms + b.newAxioms, a.deletedAxioms + b.deletedAxioms,
           a.newAnnotations + b.newAnnotations, a.deletedAnnotations + b.deletedAnnotations)
  }

  /** What one changed class contributes; a missing collection counts as empty. */
  function ClassTotals(ci: ClassAxiomsInfo): Totals
  {
    Totals(|OrEmpty(ci.newAxioms)|, |OrEmpty(ci.deletedAxioms)|,
           |OrEmpty(ci.newRawAnnotations)|, |OrEmpty(ci.deletedRawAnnotations)|)
  }

  function SumTotals(cis: seq<ClassAxiomsInfo>): Totals
  {
    if |cis| == 0 then Totals(0, 0, 0, 0) else Plus(SumTotals(cis[..|cis| - 1]), ClassTotals(cis[|cis| - 1]))
  }

  /** The totals of a list of classes are the sums of the totals of its parts. */
  lemma {:induction false} SumTotalsAppend(a: seq<ClassAxiomsInfo>, b: seq<ClassAxiomsInfo>)
    ensures SumTotals(a + b) == Plus(SumTotals(a), SumTotals(b))
    decreases |b|
  {
    if |b| == 0 {
      assert a + b == a;
    } else {
      var n := |b| - 1;
      var ab := a + b;
      assert ab[..|ab| - 1] == a + b[..n];
      assert ab[|ab| - 1] == b[n];
      SumTotalsAppend(a, b[..n]);
      assert SumTotals(ab) == Plus(SumTotals(a + b[..n]), ClassTotals(b[n]));
      assert SumTotals(b) == Plus(SumTotals(b[..n]), ClassTotals(b[n]));
    }
  }

  lemma SumTotalsSnoc(cis: seq<ClassAxiomsInfo>, i: nat)
    requires i < |cis|
    ensures SumTotals(cis[..i + 1]) == Plus(SumTotals(cis[..i]), ClassTotals(cis[i]))
  {
    assert cis[..i + 1][..i] == cis[..i];
  }

  /**
   * The header, with the date passed in and the totals computed over the changed classes;
   * a lone space line follows the class counts and each total.
   */
  function HeaderLines(cs: OntologyChanges, date: string, t: Totals): (ls: seq<string>)
    ensures |ls| == 16
  {
    ["Ontology Diff Summary"]
    + ["Diff date: " + date]
    + ["First ontology URI: " + cs.ontology1Location, "Second ontology URI: " + cs.ontology2Location]
    + ["Number of classes changed: " + Decimal(cs.numChangedClasses)]
    + ["Number of classes added: " + Decimal(cs.numNewClasses)]
    + ["Number of classes deleted: " + Decimal(cs.numDeletedClasses), " "]
    + ["Number of class axioms added: " + Decimal(t.newAxioms), " "]
    + ["Number of class axioms deleted: " + Decimal(t.deletedAxioms), " "]
    + ["Number of annotations added: " + Decimal(t.newAnnotations), " "]
    + ["Number of annotations deleted: " + Decimal(t.deletedAnnotations), " "]
  }

  // ---------------------------------------------------------------- the report

  const ChangedHeading := "@Classes modified from previous"
  const NewHeading := "@Classes new to this version"
  const DeletedHeading := "@Classes deleted from this version"

  /** What the text writer needs: all three class lists present. */
  predicate Listed(cs: OntologyChanges)
  {
    cs.classesWithDifferences.Some? && cs.newClasses.Some? && cs.deletedClasses.Some?
  }

  /** The whole summary: the header, then the changed, the new and the deleted classes. */
  function ReportLines(cs: OntologyChanges, date: string): seq<string>
    requires Listed(cs)
  {
    HeaderLines(cs, date, SumTotals(cs.classesWithDifferences.value))
    + SectionLines(cs.classesWithDifferences.value, ChangedHeading)
    + SectionLines(cs.newClasses.value, NewHeading)
    + SectionLines(cs.deletedClasses.value, DeletedHeading)
  }

  function ReportText(cs: OntologyChanges, date: string): string
    requires Listed(cs)
  {
    Unlines(ReportLines(cs, date))
  }

  // ---------------------------------------------------------------- reading the report back

  /** No text the summary shows holds a line break of its own. */
  predicate ClassFlat(ci: ClassAxiomsInfo)
  {
    && '\n' !in ci.iri && Flat(ci.labels)
    && Flat(OrEmpty(ci.deletedAxiomLabels)) && Flat(OrEmpty(ci.newAxiomLabels))
  }

  predicate ReportFlat(cs: OntologyChanges, date: string)
    requires Listed(cs)
  {
    && '\n' !in date && '\n' !in cs.ontology1Location && '\n' !in cs.ontology2Location
    && (forall i :: 0 <= i < |cs.classesWithDifferences.value| ==> ClassFlat(cs.classesWithDifferences.value[i]))
    && (forall i :: 0 <= i < |cs.newClasses.value| ==> ClassFlat(cs.newClasses.value[i]))
    && (forall i :: 0 <= i < |cs.deletedClasses.value| ==> ClassFlat(cs.deletedClasses.value[i]))
  }

  lemma FlatAppend(a: seq<string>, b: seq<string>)
    requires Flat(a) && Flat(b)
    ensures Flat(a + b)
  {
  }

  lemma PrefixedFlat(prefix: string, xs: seq<string>)
    requires '\n' !in prefix && Flat(xs)
    ensures Flat(Prefixed(prefix, xs))
  {
    var ps := Prefixed(prefix, xs);
    forall l | l in ps
      ensures '\n' !in l
    {
      var i :| 0 <= i < |ps| && ps[i] == l;
      assert xs[i] in xs;
      NoBreakConcat(prefix, xs[i]);
    }
  }

  lemma BlockFlat(ci: ClassAxiomsInfo)
    requires ClassFlat(ci)
    ensures Flat(BlockLines(ci))
  {
    LabelsFlat(ci.labels);
    NoBreakConcat("Class: ", ci.iri);
    NoBreakConcat("Label(s): ", LabelsText(ci.labels));
    PrefixedFlat("- ", OrEmpty(ci.deletedAxiomLabels));
    PrefixedFlat("+ ", OrEmpty(ci.newAxiomLabels));
    var head := ["Class: " + ci.iri] + ["Label(s): " + LabelsText(ci.labels)];
    FlatAppend(head, Prefixed("- ", OrEmpty(ci.deletedAxiomLabels)));
    FlatAppend(head + Prefixed("- ", OrEmpty(ci.deletedAxiomLabels)), Prefixed("+ ", OrEmpty(ci.newAxiomLabels)));
    FlatAppend(head + Prefixed("- ", OrEmpty(ci.deletedAxiomLabels)) + Prefixed("+ ", OrEmpty(ci.newAxiomLabels)), [""]);
  }

  lemma {:induction false} SectionFlat(cis: seq<ClassAxiomsInfo>, heading: string)
    requires '\n' !in heading
    requires forall i :: 0 <= i < |cis| ==> ClassFlat(cis[i])
    ensures Flat(BlocksLines(cis)) && Flat(SectionLines(cis, heading))
    decreases |cis|
  {
    if |cis| > 0 {
      var n := |cis| - 1;
      assert ClassFlat(cis[n]);
      SectionFlat(cis[..n], heading);
      BlockFlat(cis[n]);
      FlatAppend(BlocksLines(cis[..n]), BlockLines(cis[n]));
      FlatAppend(BannerLines(heading), BlocksLines(cis));
    }
  }

  lemma TopLinesFlat(cs: OntologyChanges, date: string)
    requires '\n' !in date && '\n' !in cs.ontology1Location && '\n' !in cs.ontology2Location
    ensures Flat(["Ontology Diff Summary"] + ["Diff date: " + date]
                 + ["First ontology URI: " + cs.ontology1Location, "Second ontology URI: " + cs.ontology2Location])
  {
    NoBreakConcat("Diff date: ", date);
    NoBreakConcat("First ontology URI: ", cs.ontology1Location);
    NoBreakConcat("Second ontology URI: ", cs.ontology2Location);
  }

  lemma ClassCountsFlat(cs: OntologyChanges)
    ensures Flat(["Number of classes changed: " + Decimal(cs.numChangedClasses)])
    ensures Flat(["Number of classes added: " + Decimal(cs.numNewClasses)])
    ensures Flat(["Number of classes deleted: " + Decimal(cs.numDeletedClasses), " "])
  {
    DecimalFlat(cs.numChangedClasses);
    DecimalFlat(cs.numNewClasses);
    DecimalFlat(cs.numDeletedClasses);
    NoBreakConcat("Number of classes changed: ", Decimal(cs.numChangedClasses));
    NoBreakConcat("Number of classes added: ", Decimal(cs.numNewClasses));
    NoBreakConcat("Number of classes deleted: ", Decimal(cs.numDeletedClasses));
  }

  lemma AxiomTotalsFlat(t: Totals)
    ensures Flat(["Number of class axioms added: " + Decimal(t.newAxioms), " "])
    ensures Flat(["Number of class axioms deleted: " + Decimal(t.deletedAxioms), " "])
  {
    DecimalFlat(t.newAxioms);
    DecimalFlat(t.deletedAxioms);
    NoBreakConcat("Number of class axioms added: ", Decimal(t.newAxioms));
    NoBreakConcat("Number of class axioms deleted: ", Decimal(t.deletedAxioms));
  }

  lemma AnnotationTotalsFlat(t: Totals)
    ensures Flat(["Number of annotations added: " + Decimal(t.newAnnotations), " "])
    ensures Flat(["Number of annotations deleted: " + Decimal(t.deletedAnnotations), " "])
  {
    DecimalFlat(t.newAnnotations);
    DecimalFlat(t.deletedAnnotations);
    NoBreakConcat("Number of annotations added: ", Decimal(t.newAnnotations));
    NoBreakConcat("Number of annotations deleted: ", Decimal(t.deletedAnnotations));
  }

  lemma HeaderFlat(cs: OntologyChanges, date: string, t: Totals)
    requires '\n' !in date && '\n' !in cs.ontology1Location && '\n' !in cs.ontology2Location
    ensures Flat(HeaderLines(cs, date, t))
  {
    TopLinesFlat(cs, date);
    ClassCountsFlat(cs);
    AxiomTotalsFlat(t);
    AnnotationTotalsFlat(t);
  }

  /**
   * Reading the summary back line by line gives exactly the header lines and then the three
   * sections, in the order changed, new, deleted, provided no shown text holds a line break.
   */
  lemma ReportRoundTrip(cs: OntologyChanges, date: string)
    requires Listed(cs) && ReportFlat(cs, date)
    ensures SplitLines(ReportText(cs, date)) == ReportLines(cs, date)
  {
    ReportLinesFlat(cs, date);
    SplitUnlines(ReportLines(cs, date));
  }

  lemma HeadingsFlat()
    ensures '\n' !in ChangedHeading && '\n' !in NewHeading && '\n' !in DeletedHeading
  {
  }

  lemma ReportLinesFlat(cs: OntologyChanges, date: string)
    requires Listed(cs) && ReportFlat(cs, date)
    ensures Flat(ReportLines(cs, date))
  {
    HeadingsFlat();
    var h := HeaderLines(cs, date, SumTotals(cs.classesWithDifferences.value));
    var s1 := SectionLines(cs.classesWithDifferences.value, ChangedHeading);
    var s2 := SectionLines(cs.newClasses.value, NewHeading);
    var s3 := SectionLines(cs.deletedClasses.value, DeletedHeading);
    HeaderFlat(cs, date, SumTotals(cs.classesWithDifferences.value));
    SectionFlat(cs.classesWithDifferences.value, ChangedHeading);
    SectionFlat(cs.newClasses.value, NewHeading);
    SectionFlat(cs.deletedClasses.value, DeletedHeading);
    FlatAppend(h, s1);
    FlatAppend(h + s1, s2);
    FlatAppend(h + s1 + s2, s3);
  }

  // ---------------------------------------------------------------- the writer

  /** The output stream (`FileWriter`): what has been written so far. */
  class TextStream {
    var written: string

    /** Opening the file without appending: the stream starts empty. */
    constructor ()
      ensures written == ""
    {
      written := "";
    }

    method Write(s: string)
      modifies this
      ensures written == old(written) + s
    {
      written := written + s;
    }
  }

  /** Writing one more piece that completes the lines `more`. */
  lemma AddLines(w0: string, lines: seq<string>, more: seq<string>, piece: string, w: string)
    requires w == w0 + Unlines(lines) + piece
    requires piece == Unlines(more)
    ensures w == w0 + Unlines(lines + more)
  {
    UnlinesAppend(lines, more);
  }

  lemma UnlinesOne(l: string)
    ensures Unlines([l]) == l + "\n"
  {
    assert [l][1..] == [];
  }

  lemma UnlinesTwo(l: string, m: string)
    ensures Unlines([l, m]) == l + "\n" + (m + "\n")
  {
    assert [l, m][1..] == [m];
    UnlinesOne(m);
  }

  lemma PrefixedStep(lines: seq<string>, prefix: string, xs: seq<string>, j: nat)
    requires j < |xs|
    ensures (lines + Prefixed(prefix, xs[..j])) + [prefix + xs[j]] == lines + Prefixed(prefix, xs[..j + 1])
  {
  }

  lemma PrefixedAll(lines: seq<string>, prefix: string, xs: seq<string>)
    ensures lines + Prefixed(prefix, xs[..|xs|]) == lines + Prefixed(prefix, xs)
  {
    assert xs[..|xs|] == xs;
  }

  /** Writes the lines `prefix + x` of a label collection, or nothing when it is missing. */
  method WriteAxiomLines(fs: TextStream, xs: Option<seq<string>>, prefix: string, ghost w0: string, ghost lines: seq<string>)
    requires fs.written == w0 + Unlines(lines)
    modifies fs
    ensures fs.written == w0 + Unlines(lines + Prefixed(prefix, OrEmpty(xs)))
  {
    if xs.Some? {
      var axioms := xs.value;
      assert lines + Prefixed(prefix, axioms[..0]) == lines;
      for j := 0 to |axioms|
        invariant fs.written == w0 + Unlines(lines + Prefixed(prefix, axioms[..j]))
      {
        ghost var before := lines + Prefixed(prefix, axioms[..j]);
        fs.Write(prefix + axioms[j] + "\n");
        UnlinesOne(prefix + axioms[j]);
        AddLines(w0, before, [prefix + axioms[j]], prefix + axioms[j] + "\n", fs.written);
        PrefixedStep(lines, prefix, axioms, j);
      }
      PrefixedAll(lines, prefix, axioms);
    } else {
      assert lines + Prefixed(prefix, []) == lines;
    }
  }

  /** The loop body of `writeListToFile`: one class block. */
  method WriteClassBlock(fs: TextStream, ci: ClassAxiomsInfo)
    modifies fs
    ensures fs.written == old(fs.written) + Unlines(BlockLines(ci))
  {
    ghost var w0 := fs.written;
    fs.Write("Class: " + ci.iri + "\n");
    StartLine(w0, "Class: " + ci.iri, fs.written);
    ghost var lines := ["Class: " + ci.iri];
    fs.Write("Label(s): ");
    ghost var base := fs.written;
    assert LabelsText(ci.labels[..0]) == "";
    for j := 0 to |ci.labels|
      invariant fs.written == base + LabelsText(ci.labels[..j])
    {
      fs.Write(ci.labels[j] + " ");
      LabelsSnoc(ci.labels, j);
    }
    assert ci.labels[..|ci.labels|] == ci.labels;
    fs.Write("\n");
    AddOneSplit(w0, lines, "Label(s): " + LabelsText(ci.labels), fs.written);
    lines := lines + ["Label(s): " + LabelsText(ci.labels)];
    WriteAxiomLines(fs, ci.deletedAxiomLabels, "- ", w0, lines);
    lines := lines + Prefixed("- ", OrEmpty(ci.deletedAxiomLabels));
    WriteAxiomLines(fs, ci.newAxiomLabels, "+ ", w0, lines);
    lines := lines + Prefixed("+ ", OrEmpty(ci.newAxiomLabels));
    fs.Write("\n");
    AddOne(w0, lines, "", fs.written);
    lines := lines + [""];
    assert lines == BlockLines(ci);
  }

  lemma BlocksSnoc(cis: seq<ClassAxiomsInfo>, i: nat, banner: seq<string>)
    requires i < |cis|
    ensures banner + BlocksLines(cis[..i + 1]) == (banner + BlocksLines(cis[..i])) + BlockLines(cis[i])
  {
    assert cis[..i + 1][..i] == cis[..i];
  }

  lemma BannerText(heading: string)
    ensures "\n" + "################" + "\n" + heading + "\n\n" == Unlines(BannerLines(heading))
  {
    var ls := BannerLines(heading);
    assert ls[1..] == ["################", heading, ""];
    assert ls[1..][1..] == [heading, ""];
    UnlinesTwo(heading, "");
  }

  /** `writeListToFile`: a section, or nothing at all when the list is empty. */
  method WriteListToFile(fs: TextStream, cis: seq<ClassAxiomsInfo>, heading: string)
    modifies fs
    ensures fs.written == old(fs.written) + Unlines(SectionLines(cis, heading))
  {
    ghost var w0 := fs.written;
    if |cis| != 0 {
      fs.Write("\n" + "################" + "\n" + heading + "\n\n");
      BannerText(heading);
      assert w0 + Unlines([]) == w0;
      AddLines(w0, [], BannerLines(heading), "\n" + "################" + "\n" + heading + "\n\n", fs.written);
      assert [] + BannerLines(heading) == BannerLines(heading) + BlocksLines(cis[..0]);
      var i := 0;
      while i < |cis|
        invariant 0 <= i <= |cis|
        invariant fs.written == w0 + Unlines(BannerLines(heading) + BlocksLines(cis[..i]))
      {
        ghost var before := BannerLines(heading) + BlocksLines(cis[..i]);
        var classChangeInfo := cis[i];
        WriteClassBlock(fs, classChangeInfo);
        AddLines(w0, before, BlockLines(classChangeInfo), Unlines(BlockLines(classChangeInfo)), fs.written);
        BlocksSnoc(cis, i, BannerLines(heading));
        i := i + 1;
      }
      assert cis[..i] == cis;
    } else {
      assert w0 + Unlines([]) == w0;
    }
  }

  /** The loop of `writeHeader`: the four totals over the changed classes. */
  method CountTotals(cis: seq<ClassAxiomsInfo>) returns (t: Totals)
    ensures t == SumTotals(cis)
  {
    var newAxiomCount: nat, deletedAxiomCount: nat, newAnnotationCount: nat, deletedAnnotationCount: nat := 0, 0, 0, 0;
    for i := 0 to |cis|
      invariant Totals(newAxiomCount, deletedAxiomCount, newAnnotationCount, deletedAnnotationCount) == SumTotals(cis[..i])
    {
      var classInfo := cis[i];
      newAnnotationCount := newAnnotationCount + |OrEmpty(classInfo.newRawAnnotations)|;
      deletedAnnotationCount := deletedAnnotationCount + |OrEmpty(classInfo.deletedRawAnnotations)|;
      newAxiomCount := newAxiomCount + |OrEmpty(classInfo.newAxioms)|;
      deletedAxiomCount := deletedAxiomCount + |OrEmpty(classInfo.deletedAxioms)|;
      SumTotalsSnoc(cis, i);
    }
    assert cis[..|cis|] == cis;
    t := Totals(newAxiomCount, deletedAxiomCount, newAnnotationCount, deletedAnnotationCount);
  }

  /** The first line written. */
  lemma StartLine(w0: string, l: string, w: string)
    requires w == w0 + (l + "\n")
    ensures w == w0 + Unlines([l])
  {
    UnlinesOne(l);
  }

  /** A line written in one piece followed by a line break. */
  lemma AddOne(w0: string, lines: seq<string>, l: string, w: string)
    requires w == w0 + Unlines(lines) + (l + "\n")
    ensures w == w0 + Unlines(lines + [l])
  {
    UnlinesOne(l);
    AddLines(w0, lines, [l], l + "\n", w);
  }

  /** A line whose break is written as a separate piece. */
  lemma AddOneSplit(w0: string, lines: seq<string>, l: string, w: string)
    requires w == w0 + Unlines(lines) + l + "\n"
    ensures w == w0 + Unlines(lines + [l])
  {
    AddOne(w0, lines, l, w);
  }

  /** Two labelled lines written in one piece. */
  lemma AddTwo(w0: string, lines: seq<string>, a: string, x: string, b: string, y: string, w: string)
    requires w == w0 + Unlines(lines) + (a + x + "\n" + b + y + "\n")
    ensures w == w0 + Unlines(lines + [a + x, b + y])
  {
    UnlinesTwo(a + x, b + y);
    AddLines(w0, lines, [a + x, b + y], a + x + "\n" + b + y + "\n", w);
  }

  /** A line followed by a line holding a single space, written in one piece. */
  lemma AddPadded(w0: string, lines: seq<string>, l: string, w: string)
    requires w == w0 + Unlines(lines) + (l + "\n \n")
    ensures w == w0 + Unlines(lines + [l, " "])
  {
    UnlinesTwo(l, " ");
    assert l + "\n \n" == l + "\n" + (" " + "\n");
    AddLines(w0, lines, [l, " "], l + "\n \n", w);
  }

  /** `writeHeader`: the summary's header, with `date` standing for the formatted current date. */
  method WriteHeader(fs: TextStream, cs: OntologyChanges, date: string)
    requires cs.classesWithDifferences.Some?
    modifies fs
    ensures fs.written == old(fs.written) + Unlines(HeaderLines(cs, date, SumTotals(cs.classesWithDifferences.value)))
  {
    ghost var w0 := fs.written;
    fs.Write("Ontology Diff Summary" + "\n");
    StartLine(w0, "Ontology Diff Summary", fs.written);
    ghost var lines := ["Ontology Diff Summary"];
    fs.Write("Diff date: " + date);
    fs.Write("\n");
    AddOneSplit(w0, lines, "Diff date: " + date, fs.written);
    lines := lines + ["Diff date: " + date];
    fs.Write("First ontology URI: " + cs.ontology1Location + "\n" +
             "Second ontology URI: " + cs.ontology2Location + "\n");
    AddTwo(w0, lines, "First ontology URI: ", cs.ontology1Location, "Second ontology URI: ", cs.ontology2Location, fs.written);
    lines := lines + ["First ontology URI: " + cs.ontology1Location, "Second ontology URI: " + cs.ontology2Location];
    fs.Write("Number of classes changed: " + Decimal(cs.numChangedClasses) + "\n");
    AddOne(w0, lines, "Number of classes changed: " + Decimal(cs.numChangedClasses), fs.written);
    lines := lines + ["Number of classes changed: " + Decimal(cs.numChangedClasses)];
    fs.Write("Number of classes added: " + Decimal(cs.numNewClasses) + "\n");
    AddOne(w0, lines, "Number of classes added: " + Decimal(cs.numNewClasses), fs.written);
    lines := lines + ["Number of classes added: " + Decimal(cs.numNewClasses)];
    fs.Write("Number of classes deleted: " + Decimal(cs.numDeletedClasses) + "\n \n");
    AddPadded(w0, lines, "Number of classes deleted: " + Decimal(cs.numDeletedClasses), fs.written);
    lines := lines + ["Number of classes deleted: " + Decimal(cs.numDeletedClasses), " "];

    var t := CountTotals(cs.classesWithDifferences.value);

    fs.Write("Number of class axioms added: " + Decimal(t.newAxioms) + "\n \n");
    AddPadded(w0, lines, "Number of class axioms added: " + Decimal(t.newAxioms), fs.written);
    lines := lines + ["Number of class axioms added: " + Decimal(t.newAxioms), " "];
    fs.Write("Number of class axioms deleted: " + Decimal(t.deletedAxioms) + "\n \n");
    AddPadded(w0, lines, "Number of class axioms deleted: " + Decimal(t.deletedAxioms), fs.written);
    lines := lines + ["Number of class axioms deleted: " + Decimal(t.deletedAxioms), " "];
    fs.Write("Number of annotations added: " + Decimal(t.newAnnotations) + "\n \n");
    AddPadded(w0, lines, "Number of annotations added: " + Decimal(t.newAnnotations), fs.written);
    lines := lines + ["Number of annotations added: " + Decimal(t.newAnnotations), " "];
    fs.Write("Number of annotations deleted: " + Decimal(t.deletedAnnotations) + "\n \n");
    AddPadded(w0, lines, "Number of annotations deleted: " + Decimal(t.deletedAnnotations), fs.written);
    lines := lines + ["Number of annotations deleted: " + Decimal(t.deletedAnnotations), " "];
    assert lines == HeaderLines(cs, date, t);
  }

  lemma ReportGlue(w: string, h: seq<string>, s1: seq<string>, s2: seq<string>, s3: seq<string>)
    requires w == "" + Unlines(h) + Unlines(s1) + Unlines(s2) + Unlines(s3)
    ensures w == Unlines(h + s1 + s2 + s3)
  {
    UnlinesAppend(h, s1);
    UnlinesAppend(h + s1, s2);
    UnlinesAppend(h + s1 + s2, s3);
  }

  /** `writeDiffToFile`: a freshly opened stream holding the header and the three sections. */
  method WriteDiffToFile(cs: OntologyChanges, date: string) returns (fs: TextStream)
    requires Listed(cs)
    ensures fresh(fs)
    ensures fs.written == ReportText(cs, date)
  {
    fs := new TextStream();
    WriteHeader(fs, cs, date);
    ghost var h := HeaderLines(cs, date, SumTotals(cs.classesWithDifferences.value));
    var changedClasses := cs.classesWithDifferences.value;
    WriteListToFile(fs, changedClasses, ChangedHeading);
    var newClasses := cs.newClasses.value;
    WriteListToFile(fs, newClasses, NewHeading);
    var deletedClasses := cs.deletedClasses.value;
    WriteListToFile(fs, deletedClasses, DeletedHeading);
    ghost var s1 := SectionLines(changedClasses, ChangedHeading);
    ghost var s2 := SectionLines(newClasses, NewHeading);
    ghost var s3 := SectionLines(deletedClasses, DeletedHeading);
    ReportGlue(fs.written, h, s1, s2, s3);
  }
}
