/**
 * Properties of the course search tool's text and citations: the three
 * outcomes of a search, the layout of the formatted hits, what the
 * no-results message names, and that a header identifies its lesson.
 */
module CourseSearchProperties {
  import opened Wrappers
  import opened Strings
  import opened CourseSearch

  /** An occurrence inside an occurrence is an occurrence. */
  lemma OccursWithin(s: string, b: string, o: int, t: string, k: int)
    requires OccursAt(s, b, o) && OccursAt(b, t, k)
    ensures OccursAt(s, t, o + k)
  {
    assert s[o..o + |b|] == b;
    forall j | 0 <= j < |t|
      ensures s[o + k + j] == t[j]
    {
      assert s[o + k + j] == s[o..o + |b|][k + j] == b[k + j];
      assert b[k + j] == b[k..k + |t|][j];
    }
    assert s[o + k..o + k + |t|] == t;
  }

  /** The hits a result holds: documents and metadata paired up to the shorter of the two. */
  function HitCount(results: SearchResults): nat {
    if |results.documents| < |results.metadata| then |results.documents| else |results.metadata|
  }

  /**
   * A search returns exactly one of three texts: the store's error verbatim,
   * the no-results message, or the formatted hits; and only the last replaces
   * the citations, with one citation per hit.
   */
  lemma ExecuteOutcomes(results: SearchResults, catalog: map<string, LessonTable>, previous: seq<Citation>,
                        courseName: Option<string>, lessonNumber: Option<int>)
    ensures results.error.Some? ==>
      ExecuteText(results, courseName, lessonNumber) == results.error.value
      && SourcesAfter(results, catalog, previous) == previous
    ensures results.error.None? && |results.documents| == 0 ==>
      ExecuteText(results, courseName, lessonNumber) == NoResultsMessage(courseName, lessonNumber)
      && SourcesAfter(results, catalog, previous) == previous
    ensures Formats(results) ==>
      ExecuteText(results, courseName, lessonNumber) == FormatResults(results)
      && |SourcesAfter(results, catalog, previous)| == HitCount(results)
  {
  }

  /**
   * The formatted hits are laid out in ranking order: block `i` (its header,
   * a newline and its document) sits whole at its offset, and a blank line
   * separates it from the next block.
   */
  lemma {:induction false} FormatResultsLayout(results: SearchResults, i: nat)
    requires i < HitCount(results)
    ensures OccursAt(FormatResults(results), FormatBlock(results.documents[i], results.metadata[i]),
                     Offset(FormattedBlocks(results.documents, results.metadata), BLOCK_SEPARATOR, i))
    ensures i + 1 < HitCount(results) ==>
      OccursAt(FormatResults(results), BLOCK_SEPARATOR,
               Offset(FormattedBlocks(results.documents, results.metadata), BLOCK_SEPARATOR, i)
               + |FormatBlock(results.documents[i], results.metadata[i])|)
  {
    var blocks := FormattedBlocks(results.documents, results.metadata);
    JoinPartAt(blocks, BLOCK_SEPARATOR, i);
    if i + 1 < HitCount(results) {
      JoinSeparatorAfter(blocks, BLOCK_SEPARATOR, i);
    }
  }

  /** Every hit's header and document appear in the formatted text. */
  lemma HitIsShown(results: SearchResults, i: nat)
    requires i < HitCount(results)
    ensures Contains(FormatResults(results), Header(results.metadata[i]))
    ensures Contains(FormatResults(results), results.documents[i])
    ensures Contains(FormatResults(results), results.metadata[i].courseTitle)
  {
    var doc, meta := results.documents[i], results.metadata[i];
    var s := FormatResults(results);
    var o := Offset(FormattedBlocks(results.documents, results.metadata), BLOCK_SEPARATOR, i);
    FormatResultsLayout(results, i);
    var block := FormatBlock(doc, meta);
    assert block == Header(meta) + "\n" + doc;
    assert OccursAt(block, Header(meta), 0) by {
      assert block[0..|Header(meta)|] == Header(meta);
    }
    OccursWithin(s, block, o, Header(meta), 0);
    assert OccursAt(block, doc, |Header(meta)| + 1) by {
      assert block[|Header(meta)| + 1..|block|] == doc;
    }
    OccursWithin(s, block, o, doc, |Header(meta)| + 1);
    assert OccursAt(block, meta.courseTitle, 1) by {
      assert block[1..1 + |meta.courseTitle|] == meta.courseTitle;
    }
    OccursWithin(s, block, o, meta.courseTitle, 1);
  }

  /** The no-results message begins by saying that nothing was found. */
  lemma NoResultsSaysSo(courseName: Option<string>, lessonNumber: Option<int>)
    ensures OccursAt(NoResultsMessage(courseName, lessonNumber), NO_CONTENT, 0)
  {
    var m := NoResultsMessage(courseName, lessonNumber);
    assert m[0..|NO_CONTENT|] == NO_CONTENT;
  }

  /** The no-results message names the course filter when one was applied. */
  lemma NoResultsNamesCourse(course: string, lessonNumber: Option<int>)
    ensures Contains(NoResultsMessage(Some(course), lessonNumber), "course '" + course + "'")
  {
    var t := "course '" + course + "'";
    var l := if lessonNumber.Some? then " in lesson " + IntToString(lessonNumber.value) else "";
    assert NoResultsMessage(Some(course), lessonNumber) == NO_CONTENT + " in " + t + (l + ".");
    ContainsMiddle(NO_CONTENT + " in ", t, l + ".");
  }

  /** The no-results message names the lesson filter when one was applied. */
  lemma NoResultsNamesLesson(courseName: Option<string>, lesson: int)
    ensures Contains(NoResultsMessage(courseName, Some(lesson)), "lesson " + IntToString(lesson))
  {
    var t := "lesson " + IntToString(lesson);
    var c := if courseName.Some? then " in course '" + courseName.value + "'" else "";
    assert NoResultsMessage(courseName, Some(lesson)) == NO_CONTENT + c + " in " + t + ".";
    ContainsMiddle(NO_CONTENT + c + " in ", t, ".");
  }

  /**
   * For one course, a header identifies the lesson: two hits of the same
   * course with the same header have the same lesson (or both have none).
   */
  lemma HeaderIdentifiesLesson(a: Metadata, b: Metadata)
    requires a.courseTitle == b.courseTitle
    requires Header(a) == Header(b)
    ensures a.lessonNumber == b.lessonNumber
  {
    var t := a.courseTitle;
    assert |Header(a)| == |t| + 2 + (if a.lessonNumber.Some? then 10 + |IntToString(a.lessonNumber.value)| else 0);
    assert |Header(b)| == |t| + 2 + (if b.lessonNumber.Some? then 10 + |IntToString(b.lessonNumber.value)| else 0);
    var prefix := "[" + t + " - Lesson ";
    if a.lessonNumber.Some? && b.lessonNumber.Some? {
      var x, y := IntToString(a.lessonNumber.value), IntToString(b.lessonNumber.value);
      assert Header(a) == prefix + x + "]";
      assert Header(b) == prefix + y + "]";
      assert x == Header(a)[|prefix|..|Header(a)| - 1];
      assert y == Header(b)[|prefix|..|Header(b)| - 1];
      IntToStringInjective(a.lessonNumber.value, b.lessonNumber.value);
    }
  }

  /** A citation's link is found only through the lesson the hit names, in its own course. */
  lemma CitationLink(results: SearchResults, catalog: map<string, LessonTable>, previous: seq<Citation>, i: nat)
    requires Formats(results) && i < HitCount(results)
    ensures SourcesAfter(results, catalog, previous)[i].title == SourceTitle(results.metadata[i])
    ensures SourcesAfter(results, catalog, previous)[i].url.Some? <==>
      && results.metadata[i].lessonNumber.Some?
      && results.metadata[i].courseTitle in catalog
      && catalog[results.metadata[i].courseTitle].Lessons?
      && results.metadata[i].lessonNumber.value in catalog[results.metadata[i].courseTitle].links
  {
  }

  /** A single hit with a lesson: the course and lesson in brackets, a newline, then the document. */
  lemma OneHitWithLesson(title: string, lesson: int, chunk: Option<int>, document: string)
    ensures FormatResults(SearchResults([document], [Metadata(title, Some(lesson), chunk)], None))
            == "[" + title + " - Lesson " + IntToString(lesson) + "]\n" + document
  {
    var meta := Metadata(title, Some(lesson), chunk);
    assert FormattedBlocks([document], [meta]) == [FormatBlock(document, meta)];
  }

  /** Lesson 1 of "AI Basics" is labelled "[AI Basics - Lesson 1]". */
  lemma AIBasicsLessonOne()
    ensures Header(Metadata("AI Basics", Some(1), Some(0))) == "[AI Basics - Lesson 1]"
  {
    assert NatToString(1) == "1";
  }

  /** A hit without a lesson number is labelled by its course alone. */
  lemma OneHitWithoutLesson(title: string, chunk: Option<int>, document: string)
    ensures FormatResults(SearchResults([document], [Metadata(title, None, chunk)], None))
            == "[" + title + "]\n" + document
  {
    var meta := Metadata(title, None, chunk);
    assert FormattedBlocks([document], [meta]) == [FormatBlock(document, meta)];
  }
}
