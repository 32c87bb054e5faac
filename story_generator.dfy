/**
 * The pure helpers of the one-shot story generator: turning the user's
 * option choices into prompt phrases, assembling the prompt, splitting a
 * story into segments at ". " and truncating a string to a prefix.
 */
module StoryGenerator {
  import opened Text

  /** A dict literal: its (option, phrase) entries in the order they are written (see DistinctOptions). */
  type Table = seq<(string, string)>

  const LengthTable: Table := [
    ("Short", "Length: Up to 500 words.\n"),
    ("Medium-form", "Length: 500-2000 words.\n"),
    ("Long-form", "Length: 2000+ words.\n")
  ]

  const FictionLevelTable: Table := [
    ("Complete fiction", "This is a completely fictional story.\n"),
    ("Based on true story", "This story is based on a true story.\n"),
    ("Non-fiction", "This is a non-fiction story.\n")
  ]

  const RealityLevelTable: Table := [
    ("Completely fantastical", "The story is completely fantastical.\n"),
    ("Semi-realistic", "The story is semi-realistic.\n"),
    ("Realistic", "The story is realistic.\n")
  ]

  const InformativenessTable: Table := [
    ("Information", "The story provides accurate information.\n"),
    ("Misinformation", "The story provides misinformation.\n")
  ]

  const IpAvoidanceTable: Table := [
    ("Completely original", "The story must be completely original.\n"),
    ("Inspired by genre", "The story is inspired by a specific genre.\n"),
    ("Inspired by author", "The story is inspired by a specific author.\n"),
    ("Inspired by particular work", "The story is inspired by a particular work.\n"),
    ("Derivative (i.e., fan fiction)", "The story is a fan fiction.\n"),
    ("Plagiarism", "The story is a plagiarism.\n")
  ]

  /** The table has an entry for `option`. */
  ghost predicate Known(table: Table, option: string)
  {
    exists i :: 0 <= i < |table| && table[i].0 == option
  }

  /** The table maps `option` to `phrase`. */
  ghost predicate Entry(table: Table, option: string, phrase: string)
  {
    exists i :: 0 <= i < |table| && table[i] == (option, phrase)
  }

  /** No option appears twice, as in a dict literal: an option has at most one phrase. */
  ghost predicate DistinctOptions(table: Table)
  {
    forall i, j :: 0 <= i < j < |table| ==> table[i].0 != table[j].0
  }

  /** The five tables list each option once. */
  lemma OptionsAreDistinct()
    ensures DistinctOptions(LengthTable) && DistinctOptions(FictionLevelTable) && DistinctOptions(RealityLevelTable)
    ensures DistinctOptions(InformativenessTable) && DistinctOptions(IpAvoidanceTable)
  {
  }

  /** In a table with distinct options, the entry for an option fixes its phrase. */
  lemma EntryDeterminesPhrase(table: Table, option: string, phrase1: string, phrase2: string)
    requires DistinctOptions(table) && Entry(table, option, phrase1) && Entry(table, option, phrase2)
    ensures phrase1 == phrase2
  {
    var i :| 0 <= i < |table| && table[i] == (option, phrase1);
    var j :| 0 <= j < |table| && table[j] == (option, phrase2);
    assert !(i < j) && !(j < i);
  }

  /** `table.get(option, "")`. */
  function Get(table: Table, option: string): string
  {
    if table == [] then ""
    else if table[0].0 == option then table[0].1
    else Get(table[1..], option)
  }

  /** `Get` finds the option's phrase when the table knows the option, and gives "" otherwise. */
  lemma {:induction false} GetFindsEntry(table: Table, option: string)
    ensures Known(table, option) ==> Entry(table, option, Get(table, option))
    ensures !Known(table, option) ==> Get(table, option) == ""
  {
    if table != [] && table[0].0 != option {
      GetFindsEntry(table[1..], option);
      if Known(table, option) {
        var i :| 0 <= i < |table| && table[i].0 == option;
        assert table[1..][i - 1].0 == option;
      }
      if Known(table[1..], option) {
        var i :| 0 <= i < |table[1..]| && table[1..][i] == (option, Get(table, option));
        assert table[i + 1] == (option, Get(table, option));
      }
    } else if table != [] {
      assert table[0] == (option, Get(table, option));
    }
  }

  /** No phrase of the table is empty. */
  ghost predicate NonEmptyPhrases(table: Table)
  {
    forall i :: 0 <= i < |table| ==> |table[i].1| > 0
  }

  /** Every phrase of every table is non-empty. */
  lemma PhrasesAreNonEmpty()
    ensures NonEmptyPhrases(LengthTable) && NonEmptyPhrases(FictionLevelTable) && NonEmptyPhrases(RealityLevelTable)
    ensures NonEmptyPhrases(InformativenessTable) && NonEmptyPhrases(IpAvoidanceTable)
  {
  }

  /** `part` is what `table.get(option, "")` gives: the option's phrase when the table knows it, "" otherwise. */
  ghost predicate PhraseOf(table: Table, option: string, part: string)
  {
    (Known(table, option) ==> Entry(table, option, part)) && (!Known(table, option) ==> part == "")
  }

  /**
   * The prompt parts for the five options, in the fixed order length,
   * fiction level, reality level, informativeness, IP avoidance; each part
   * is the table's phrase when the option is recognised and empty otherwise.
   */
  function MapUserInputs(length: string, fictionLevel: string, realityLevel: string,
                         informativeness: string, ipAvoidance: string): (parts: seq<string>)
    ensures |parts| == 5
    ensures PhraseOf(LengthTable, length, parts[0]) && PhraseOf(FictionLevelTable, fictionLevel, parts[1])
    ensures PhraseOf(RealityLevelTable, realityLevel, parts[2])
    ensures PhraseOf(InformativenessTable, informativeness, parts[3])
    ensures PhraseOf(IpAvoidanceTable, ipAvoidance, parts[4])
  {
    GetFindsEntry(LengthTable, length);
    GetFindsEntry(FictionLevelTable, fictionLevel);
    GetFindsEntry(RealityLevelTable, realityLevel);
    GetFindsEntry(InformativenessTable, informativeness);
    GetFindsEntry(IpAvoidanceTable, ipAvoidance);
    [ Get(LengthTable, length),
      Get(FictionLevelTable, fictionLevel),
      Get(RealityLevelTable, realityLevel),
      Get(InformativenessTable, informativeness),
      Get(IpAvoidanceTable, ipAvoidance) ]
  }

  /** With non-empty phrases, a part is empty exactly when the table does not know its option. */
  lemma PhraseEmptyIffUnknown(table: Table, option: string, part: string)
    requires NonEmptyPhrases(table) && PhraseOf(table, option, part)
    ensures part == "" <==> !Known(table, option)
  {
    if Known(table, option) {
      var i :| 0 <= i < |table| && table[i] == (option, part);
    }
  }

  /** A part is empty exactly when its option is not one the table knows. */
  lemma PartEmptyIffUnrecognised(length: string, fictionLevel: string, realityLevel: string,
                                 informativeness: string, ipAvoidance: string)
    ensures var parts := MapUserInputs(length, fictionLevel, realityLevel, informativeness, ipAvoidance);
      && (parts[0] == "" <==> !Known(LengthTable, length))
      && (parts[1] == "" <==> !Known(FictionLevelTable, fictionLevel))
      && (parts[2] == "" <==> !Known(RealityLevelTable, realityLevel))
      && (parts[3] == "" <==> !Known(InformativenessTable, informativeness))
      && (parts[4] == "" <==> !Known(IpAvoidanceTable, ipAvoidance))
  {
    var parts := MapUserInputs(length, fictionLevel, realityLevel, informativeness, ipAvoidance);
    PhrasesAreNonEmpty();
    PhraseEmptyIffUnknown(LengthTable, length, parts[0]);
    PhraseEmptyIffUnknown(FictionLevelTable, fictionLevel, parts[1]);
    PhraseEmptyIffUnknown(RealityLevelTable, realityLevel, parts[2]);
    PhraseEmptyIffUnknown(InformativenessTable, informativeness, parts[3]);
    PhraseEmptyIffUnknown(IpAvoidanceTable, ipAvoidance, parts[4]);
  }

  /** Joining four pieces with no separator concatenates them. */
  lemma {:induction false} JoinFourWithoutSeparator(pieces: seq<string>)
    requires |pieces| == 4
    ensures Join(pieces, "") == pieces[0] + pieces[1] + pieces[2] + pieces[3]
  {
    assert Join(pieces[3..], "") == pieces[3];
    assert pieces[2..][1..] == pieces[3..];
    assert Join(pieces[2..], "") == pieces[2] + "" + pieces[3];
    assert pieces[1..][1..] == pieces[2..];
    assert Join(pieces[1..], "") == pieces[1] + "" + (pieces[2] + "" + pieces[3]);
  }

  function ThemeSentence(moralTheme: string): string
  {
    "The story should convey the theme of " + moralTheme + ".\n"
  }

  function CharactersSentence(numCharacters: int): string
  {
    "The story features " + IntToString(numCharacters) + " main characters.\n"
  }

  /**
   * The prompt: the phrases for fiction level, reality level,
   * informativeness and IP avoidance (the length phrase is dropped),
   * followed by the theme sentence and the character-count sentence.
   */
  function ConstructPrompt(length: string, fictionLevel: string, realityLevel: string, informativeness: string,
                           moralTheme: string, ipAvoidance: string, numCharacters: int): (prompt: string)
    ensures var parts := MapUserInputs(length, fictionLevel, realityLevel, informativeness, ipAvoidance);
            prompt == parts[1] + parts[2] + parts[3] + parts[4]
                      + ThemeSentence(moralTheme) + CharactersSentence(numCharacters)
  {
    var parts := MapUserInputs(length, fictionLevel, realityLevel, informativeness, ipAvoidance);
    var options := Join(parts[1..], "");
    JoinFourWithoutSeparator(parts[1..]);
    assert options == parts[1] + parts[2] + parts[3] + parts[4];
    var start := "";
    var withOptions := start + options;
    assert withOptions == options;
    var withTheme := withOptions + ThemeSentence(moralTheme);
    withTheme + CharactersSentence(numCharacters)
  }

  /** The length option has no influence on the prompt. */
  lemma LengthIsIgnored(length1: string, length2: string, fictionLevel: string, realityLevel: string,
                        informativeness: string, moralTheme: string, ipAvoidance: string, numCharacters: int)
    ensures ConstructPrompt(length1, fictionLevel, realityLevel, informativeness, moralTheme, ipAvoidance, numCharacters)
         == ConstructPrompt(length2, fictionLevel, realityLevel, informativeness, moralTheme, ipAvoidance, numCharacters)
  {
  }

  /** With no recognised option the prompt is just the two closing sentences. */
  lemma UnrecognisedOptionsLeaveTwoSentences(length: string, fictionLevel: string, realityLevel: string,
                                             informativeness: string, moralTheme: string, ipAvoidance: string,
                                             numCharacters: int)
    requires !Known(FictionLevelTable, fictionLevel) && !Known(RealityLevelTable, realityLevel)
    requires !Known(InformativenessTable, informativeness) && !Known(IpAvoidanceTable, ipAvoidance)
    ensures ConstructPrompt(length, fictionLevel, realityLevel, informativeness, moralTheme, ipAvoidance, numCharacters)
         == ThemeSentence(moralTheme) + CharactersSentence(numCharacters)
  {
    var parts := MapUserInputs(length, fictionLevel, realityLevel, informativeness, ipAvoidance);
    var options := parts[1] + parts[2] + parts[3] + parts[4];
    assert parts[1] == "" && parts[2] == "" && parts[3] == "" && parts[4] == "";
    assert options == "";
    assert options + ThemeSentence(moralTheme) == ThemeSentence(moralTheme);
  }

  /** `s` has the separator ". " at position `i`. */
  predicate SeparatorAt(s: string, i: int)
  {
    0 <= i && i + 1 < |s| && s[i] == '.' && s[i + 1] == ' '
  }

  predicate ContainsSeparator(s: string)
  {
    exists i :: 0 <= i < |s| && SeparatorAt(s, i)
  }

  /**
   * `story.split('. ')`: the pieces between the non-overlapping occurrences
   * of ". ", found from the left.
   */
  function SplitStoryIntoSegments(story: string): (segments: seq<string>)
    ensures |segments| >= 1
    ensures |segments[0]| > 0 ==> |story| > 0 && !SeparatorAt(story, 0) && segments[0][0] == story[0]
    decreases |story|
  {
    if |story| < 2 then [story]
    else if SeparatorAt(story, 0) then [""] + SplitStoryIntoSegments(story[2..])
    else
      var rest := SplitStoryIntoSegments(story[1..]);
      [[story[0]] + rest[0]] + rest[1..]
  }

  /** The number of non-overlapping ". " occurrences, counted from the left (`str.count`). */
  function CountSeparators(s: string): nat
    decreases |s|
  {
    if |s| < 2 then 0
    else if SeparatorAt(s, 0) then 1 + CountSeparators(s[2..])
    else CountSeparators(s[1..])
  }

  /** Joining the segments with ". " gives back the story. */
  lemma {:induction false} JoinSegments(story: string)
    ensures Join(SplitStoryIntoSegments(story), ". ") == story
    decreases |story|
  {
    var segments := SplitStoryIntoSegments(story);
    if |story| < 2 {
    } else if SeparatorAt(story, 0) {
      JoinSegments(story[2..]);
      assert segments[1..] == SplitStoryIntoSegments(story[2..]);
      assert story == "" + ". " + story[2..];
    } else {
      var rest := SplitStoryIntoSegments(story[1..]);
      JoinSegments(story[1..]);
      assert story == [story[0]] + story[1..];
      if |rest| == 1 {
        assert Join(segments, ". ") == [story[0]] + rest[0];
      } else {
        assert segments[1..] == rest[1..];
        assert Join(rest, ". ") == rest[0] + ". " + Join(rest[1..], ". ");
      }
    }
  }

  /** One more segment than separators. */
  lemma {:induction false} SegmentCount(story: string)
    ensures |SplitStoryIntoSegments(story)| == CountSeparators(story) + 1
    decreases |story|
  {
    if |story| >= 2 {
      if SeparatorAt(story, 0) {
        SegmentCount(story[2..]);
      } else {
        SegmentCount(story[1..]);
      }
    }
  }

  /** No segment contains the separator. */
  lemma {:induction false} SegmentsHaveNoSeparator(story: string)
    ensures forall segment :: segment in SplitStoryIntoSegments(story) ==> !ContainsSeparator(segment)
    decreases |story|
  {
    var segments := SplitStoryIntoSegments(story);
    if |story| < 2 {
      forall segment | segment in segments ensures !ContainsSeparator(segment) {
        assert segment == story;
      }
    } else if SeparatorAt(story, 0) {
      SegmentsHaveNoSeparator(story[2..]);
      assert !ContainsSeparator("");
      forall segment | segment in segments ensures !ContainsSeparator(segment) {
        if segment != "" {
          assert segment in SplitStoryIntoSegments(story[2..]);
        }
      }
    } else {
      var rest := SplitStoryIntoSegments(story[1..]);
      SegmentsHaveNoSeparator(story[1..]);
      var first := [story[0]] + rest[0];
      assert rest[0] in rest;
      forall i | SeparatorAt(first, i) ensures false {
        if i > 0 {
          assert SeparatorAt(rest[0], i - 1);
        }
      }
      forall segment | segment in segments ensures !ContainsSeparator(segment) {
        if segment != first {
          assert segment in rest;
        }
      }
    }
  }

  /** `s[:amount]`: a negative amount counts from the end, and the slice is clamped to the string. */
  function Left(s: string, amount: int): (r: string)
    ensures r <= s
    ensures amount >= 0 ==> |r| == if amount < |s| then amount else |s|
    ensures amount < 0 ==> |r| == if |s| + amount > 0 then |s| + amount else 0
  {
    var end := if amount >= 0 then (if amount < |s| then amount else |s|)
               else (if |s| + amount > 0 then |s| + amount else 0);
    s[..end]
  }

  /** Truncating an already truncated string to the same non-negative length changes nothing. */
  lemma LeftIdempotent(s: string, amount: int)
    requires amount >= 0
    ensures Left(Left(s, amount), amount) == Left(s, amount)
  {
  }
}
