/** The project cards of src/components/projects.jsx show a project's
    description as one heading per non-blank line:
    `description.split('\n').filter(line => line.trim())`. */
module Projects {
  import opened Seqs
  import opened Text

  /** The lines a description is displayed as. */
  function DescriptionLines(description: string): seq<string>
  {
    KeepNonBlank(Split(description, '\n'))
  }

  /** The displayed lines are exactly the non-blank pieces of the newline
      split, in order: none holds a newline, each has a non-whitespace
      character, and no non-blank piece is dropped. */
  lemma DescriptionLinesSpec(description: string)
    ensures forall i :: 0 <= i < |DescriptionLines(description)| ==> '\n' !in DescriptionLines(description)[i]
    ensures forall i :: 0 <= i < |DescriptionLines(description)| ==> !IsBlank(DescriptionLines(description)[i])
    ensures Subseq(DescriptionLines(description), Split(description, '\n'))
    ensures forall s :: !IsBlank(s) ==>
              multiset(DescriptionLines(description))[s] == multiset(Split(description, '\n'))[s]
  {
    var pieces := Split(description, '\n');
    KeepNonBlankSpec(pieces);
    forall i | 0 <= i < |DescriptionLines(description)| ensures '\n' !in DescriptionLines(description)[i] {
      assert DescriptionLines(description)[i] in pieces;
    }
  }

  /** A description that is empty or only whitespace (newlines included)
      is displayed as no lines at all. */
  lemma BlankDescriptionHasNoLines(description: string)
    requires IsBlank(description)
    ensures DescriptionLines(description) == []
  {
    SplitOfBlankIsBlank(description);
    KeepNonBlankExtremes(Split(description, '\n'));
  }

  /** Every newline-separated piece of a blank string is blank. */
  lemma {:induction false} SplitOfBlankIsBlank(s: string)
    requires IsBlank(s)
    ensures forall i :: 0 <= i < |Split(s, '\n')| ==> IsBlank(Split(s, '\n')[i])
    decreases |s|
  {
    if s != [] {
      SplitOfBlankIsBlank(s[1..]);
    }
  }

  /** A non-blank description without a newline is displayed as one line: itself. */
  lemma SingleLineDescription(description: string)
    requires '\n' !in description
    requires !IsBlank(description)
    ensures DescriptionLines(description) == [description]
  {
    SplitWithoutSeparator(description, '\n');
    KeepNonBlankExtremes([description]);
  }

  /** The displayed lines, joined back with newlines, are the description
      with its blank lines removed; for a description without blank lines
      that is the description itself. */
  lemma NoBlankLinesRoundTrip(description: string)
    requires forall i :: 0 <= i < |Split(description, '\n')| ==> !IsBlank(Split(description, '\n')[i])
    ensures Join(DescriptionLines(description), "\n") == description
  {
    KeepNonBlankExtremes(Split(description, '\n'));
    JoinSplit(description, '\n');
  }
}
