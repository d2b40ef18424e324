/** The analysis result the backend returns, and the text `copyResults`
    builds from it for the clipboard. */
module Analysis {
  import opened Wrappers
  import opened Strings

  datatype AlternateSpeech = AlternateSpeech(demographic: string, speech: string)

  datatype AnalysisResult = AnalysisResult(
    category: string,
    demographics: seq<string>,
    alternateSpeeches: seq<AlternateSpeech>)

  /** One `${alt.demographic}: ${alt.speech}` entry. */
  function Entry(alt: AlternateSpeech): string {
    alt.demographic + ": " + alt.speech
  }

  function Entries(alts: seq<AlternateSpeech>): (es: seq<string>)
    ensures |es| == |alts|
    ensures forall i :: 0 <= i < |alts| ==> es[i] == Entry(alts[i])
  {
    seq(|alts|, i requires 0 <= i < |alts| => Entry(alts[i]))
  }

  /** The fixed heading, the category line, the demographics line and the
      "Alternative Speeches:" heading. */
  const Heading := "ClarityAI Analysis Results\n" + "========================\n" + "\n" + "Category: "

  function Header(r: AnalysisResult): string {
    Heading + r.category
    + "\nDemographics: " + Join(r.demographics, ", ")
    + "\n\nAlternative Speeches:"
  }

  /** The template literal before `.trim()`, around a header `h` and the
      joined entries `j`: it opens with a line break and closes with a line
      break and four spaces of indentation. */
  function Framed(h: string, j: string): string {
    "\n" + h + "\n" + j + "\n    "
  }

  function Template(r: AnalysisResult): string {
    Framed(Header(r), Join(Entries(r.alternateSpeeches), "\n\n"))
  }

  function ResultsText(r: AnalysisResult): string {
    Trim(Template(r))
  }

  /** `copyResults`: nothing without a result, otherwise the clipboard text. */
  function CopyResults(analysisResult: Option<AnalysisResult>): (text: Option<string>)
    ensures text.Some? <==> analysisResult.Some?
    ensures text.Some? ==>
      (|Header(analysisResult.value)| <= |text.value|
       && text.value[..|Header(analysisResult.value)|] == Header(analysisResult.value))
  {
    match analysisResult
    case None => None
    case Some(r) =>
      ResultsTextStartsWithHeader(r);
      Some(ResultsText(r))
  }

  /** The header starts with the 'C' of "ClarityAI" and ends with the colon
      of "Alternative Speeches:". */
  lemma {:induction false} HeaderEnds(r: AnalysisResult)
    ensures Header(r) != [] && Header(r)[0] == 'C' && Header(r)[|Header(r)| - 1] == ':'
  {
    assert Heading[0] == 'C';
    assert Header(r)[0] == Heading[0];
  }

  /** Trimming the start removes only the opening line break in front of a
      header that starts with a visible character. */
  lemma {:induction false} FramedTrimStart(h: string, j: string)
    requires h != [] && !IsWhitespace(h[0])
    ensures TrimStart(Framed(h, j)) == h + "\n" + j + "\n    "
  {
    var rest := h + "\n" + j + "\n    ";
    assert Framed(h, j) == "\n" + rest;
    assert ("\n" + rest)[1..] == rest;
    assert rest[0] == h[0];
    TrimStartNoLeadingWhitespace(rest);
  }

  /** The trim never cuts into a header with visible characters at both ends. */
  lemma {:induction false} FramedTrimKeepsHeader(h: string, j: string)
    requires h != [] && !IsWhitespace(h[0]) && !IsWhitespace(h[|h| - 1])
    ensures |h| <= |Trim(Framed(h, j))| && Trim(Framed(h, j))[..|h|] == h
  {
    FramedTrimStart(h, j);
    var tail := "\n" + j + "\n    ";
    assert h + "\n" + j + "\n    " == h + tail;
    TrimEndKeepsPrefix(h, tail);
  }

  /** With no entries the trim leaves exactly the header. */
  lemma {:induction false} FramedTrimNoEntries(h: string)
    requires h != [] && !IsWhitespace(h[0]) && !IsWhitespace(h[|h| - 1])
    ensures Trim(Framed(h, "")) == h
  {
    FramedTrimStart(h, "");
    assert h + "\n" + "" + "\n    " == h + "\n\n    ";
    TrimEndDropsWhitespaceTail(h, "\n\n    ");
  }

  /** With entries that are not all whitespace, the trim removes only their
      trailing whitespace and what the template adds around them. */
  lemma {:induction false} FramedTrim(h: string, j: string)
    requires h != [] && !IsWhitespace(h[0])
    requires TrimEnd(j) != []
    ensures Trim(Framed(h, j)) == h + "\n" + TrimEnd(j)
  {
    FramedTrimStart(h, j);
    TrimEndOfMiddle(h + "\n", j, "\n    ");
  }

  /** The copied text always begins with the heading, the category and the demographics. */
  lemma {:induction false} ResultsTextStartsWithHeader(r: AnalysisResult)
    ensures |Header(r)| <= |ResultsText(r)|
    ensures ResultsText(r)[..|Header(r)|] == Header(r)
  {
    HeaderEnds(r);
    FramedTrimKeepsHeader(Header(r), Join(Entries(r.alternateSpeeches), "\n\n"));
  }

  /** Without alternatives the text ends right after "Alternative Speeches:". */
  lemma {:induction false} ResultsTextWithoutAlternatives(r: AnalysisResult)
    requires r.alternateSpeeches == []
    ensures ResultsText(r) == Header(r)
  {
    HeaderEnds(r);
    assert Entries(r.alternateSpeeches) == [];
    FramedTrimNoEntries(Header(r));
  }

  /** Every entry has a visible colon, so the joined entries never trim away. */
  lemma {:induction false} EntriesNotBlank(alts: seq<AlternateSpeech>)
    requires alts != []
    ensures TrimEnd(Join(Entries(alts), "\n\n")) != []
  {
    var es := Entries(alts);
    var j := Join(es, "\n\n");
    JoinEndsWithLast(es, "\n\n");
    var last := es[|es| - 1];
    var d := alts[|alts| - 1].demographic;
    assert last == d + ": " + alts[|alts| - 1].speech;
    assert last[|d|] == ':';
    assert j[|j| - |last| + |d|] == last[|d|];
    TrimEndKeepsVisible(j, |j| - |last| + |d|);
  }

  /** With any alternatives, the final trim removes only the opening line
      break, the closing indentation and the whitespace at the end of the last
      entry. */
  lemma {:induction false} ResultsTextTrimsLastEntry(r: AnalysisResult)
    requires r.alternateSpeeches != []
    ensures ResultsText(r) == Header(r) + "\n" + TrimEnd(Join(Entries(r.alternateSpeeches), "\n\n"))
  {
    HeaderEnds(r);
    EntriesNotBlank(r.alternateSpeeches);
    FramedTrim(Header(r), Join(Entries(r.alternateSpeeches), "\n\n"));
  }

  /** Entries whose last speech ends in a visible character lose nothing to `TrimEnd`. */
  lemma {:induction false} EntriesEndVisibly(alts: seq<AlternateSpeech>)
    requires alts != []
    requires var last := alts[|alts| - 1].speech; last != [] && !IsWhitespace(last[|last| - 1])
    ensures TrimEnd(Join(Entries(alts), "\n\n")) == Join(Entries(alts), "\n\n")
  {
    var es := Entries(alts);
    var j := Join(es, "\n\n");
    JoinEndsWithLast(es, "\n\n");
    var lastEntry := es[|es| - 1];
    assert lastEntry == Entry(alts[|alts| - 1]);
    assert lastEntry[|lastEntry| - 1] == alts[|alts| - 1].speech[|alts[|alts| - 1].speech| - 1];
    assert j[|j| - 1] == lastEntry[|lastEntry| - 1];
    TrimEndDropsWhitespaceTail(j, "");
    assert j + "" == j;
  }

  /** With alternatives whose last speech ends in a visible character, the text
      is the header, a line break, and the entries separated by blank lines. */
  lemma {:induction false} ResultsTextWithAlternatives(r: AnalysisResult)
    requires r.alternateSpeeches != []
    requires var last := r.alternateSpeeches[|r.alternateSpeeches| - 1].speech;
      last != [] && !IsWhitespace(last[|last| - 1])
    ensures ResultsText(r) == Header(r) + "\n" + Join(Entries(r.alternateSpeeches), "\n\n")
  {
    ResultsTextTrimsLastEntry(r);
    EntriesEndVisibly(r.alternateSpeeches);
  }

  /** A single entry with an empty speech ends in a space after its colon,
      which `TrimEnd` removes. */
  lemma {:induction false} SingleEmptyEntry(alts: seq<AlternateSpeech>)
    requires |alts| == 1 && alts[0].speech == ""
    ensures TrimEnd(Join(Entries(alts), "\n\n")) == alts[0].demographic + ":"
  {
    var d := alts[0].demographic;
    var es := Entries(alts);
    assert es[0] == d + ": " + "";
    assert Join(es, "\n\n") == (d + ":") + " ";
    TrimEndDropsWhitespaceTail(d + ":", " ");
  }

  /** When the last speech is empty its entry ends in the space after the
      colon, which the final trim removes along with the trailing indentation. */
  lemma {:induction false} ResultsTextEmptyLastSpeech(r: AnalysisResult)
    requires |r.alternateSpeeches| == 1 && r.alternateSpeeches[0].speech == ""
    ensures ResultsText(r) == Header(r) + "\n" + (r.alternateSpeeches[0].demographic + ":")
  {
    ResultsTextTrimsLastEntry(r);
    SingleEmptyEntry(r.alternateSpeeches);
  }

  /** A result with category "Economics", the demographics "Progressive" and
      "Conservative", and one short speech for each. */
  const Example := AnalysisResult("Economics", ["Progressive", "Conservative"],
    [AlternateSpeech("Progressive", "Invest."), AlternateSpeech("Conservative", "Cut.")])

  lemma {:induction false} ExampleDemographics()
    ensures Join(Example.demographics, ", ") == "Progressive" + ", " + "Conservative"
  {
  }

  lemma {:induction false} ExampleEntries()
    ensures Join(Entries(Example.alternateSpeeches), "\n\n")
      == "Progressive" + ": " + "Invest." + "\n\n" + "Conservative" + ": " + "Cut."
  {
  }

  lemma {:induction false} ResultsTextExample()
    ensures ResultsText(Example)
      == Heading + "Economics"
      + "\nDemographics: " + ("Progressive" + ", " + "Conservative")
      + "\n\nAlternative Speeches:"
      + "\n" + ("Progressive" + ": " + "Invest." + "\n\n" + "Conservative" + ": " + "Cut.")
  {
    ResultsTextWithAlternatives(Example);
    ExampleDemographics();
    ExampleEntries();
  }
}
