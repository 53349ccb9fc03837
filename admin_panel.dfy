/**
 * The administrator's test catalogue: the list of tests on display and the
 * draft form a new test is authored in.  Creating a test appends a record
 * numbered after its position and resets the form; adding a question appends
 * a blank single-choice question to the draft.
 */
module AdminPanel {
  import opened Decimal

  /** A test in the catalogue. */
  datatype Test = Test(
    id: string,
    title: string,
    duration: int,
    startDate: string,
    endDate: string,
    studentCount: int)

  /** A question of the draft: its type tag, its text and its option texts. */
  datatype DraftQuestion = DraftQuestion(kind: string, text: string, options: seq<string>)

  /** The draft form: the fields the new test is made from, and its questions. */
  datatype Draft = Draft(
    title: string,
    duration: int,
    startDate: string,
    endDate: string,
    questions: seq<DraftQuestion>)

  /** The question the form starts with and "add question" appends. */
  const BlankQuestion: DraftQuestion := DraftQuestion("single", "", ["", "", "", ""])

  /** The empty form: no title, 60 minutes, no dates, one blank question. */
  const BlankDraft: Draft := Draft("", 60, "", "", [BlankQuestion])

  /** The test the catalogue starts with. */
  const SeedTest: Test :=
    Test("test-001", "Основы программирования", 60, "2025-01-15", "2025-01-20", 25)

  /**
   * The id of the test at 1-based `position`: "test-" and the position's
   * decimal form, left-padded with '0' to at least three digits (longer
   * numbers are kept whole).
   */
  function TestId(position: nat): (r: string)
    ensures 8 <= |r|
    ensures r[..5] == "test-"
  {
    "test-" + PadStart(NatToString(position), 3, '0')
  }

  /** The digits after the prefix of an id denote its position again. */
  lemma TestIdDigits(position: nat)
    ensures IsDigits(TestId(position)[5..])
    ensures DigitsValue(TestId(position)[5..]) == position
  {
    var digits := PadStart(NatToString(position), 3, '0');
    ZeroPaddedValue(position, 3);
    assert TestId(position)[5..] == digits;
  }

  /** Different positions never share an id. */
  lemma TestIdInjective(a: nat, b: nat)
    requires a != b
    ensures TestId(a) != TestId(b)
  {
    TestIdDigits(a);
    TestIdDigits(b);
  }

  /** The seed test's id is that of position 1, and padding never cuts a long number. */
  lemma TestIdExamples()
    ensures TestId(1) == "test-001"
    ensures TestId(42) == "test-042"
    ensures TestId(1000) == "test-1000"
  {
    assert NatToString(1) == "1";
    assert NatToString(42) == "42";
    assert NatToString(1000) == "1000";
  }

  /** Every test's id encodes its 1-based position in the catalogue. */
  ghost predicate WellNumbered(tests: seq<Test>) {
    forall i :: 0 <= i < |tests| ==> tests[i].id == TestId(i + 1)
  }

  /** The catalogue's starting list is numbered from 1. */
  lemma SeedWellNumbered()
    ensures WellNumbered([SeedTest])
  {
  }

  /** Appending the test numbered after the last position keeps the numbering. */
  lemma AppendWellNumbered(tests: seq<Test>, test: Test)
    requires WellNumbered(tests)
    requires test.id == TestId(|tests| + 1)
    ensures WellNumbered(tests + [test])
  {
  }

  /** In a well-numbered catalogue no two tests share an id. */
  lemma DistinctIds(tests: seq<Test>)
    requires WellNumbered(tests)
    ensures forall i, j :: 0 <= i < j < |tests| ==> tests[i].id != tests[j].id
  {
    forall i, j | 0 <= i < j < |tests|
      ensures tests[i].id != tests[j].id
    {
      TestIdInjective(i + 1, j + 1);
    }
  }

  /** The catalogue page's state: the tests on display and the draft form. */
  class Catalogue {
    var tests: seq<Test>
    var newTest: Draft

    /** Ids follow positions, and the draft always holds at least one question. */
    ghost predicate Valid()
      reads this
    {
      WellNumbered(tests) && 1 <= |newTest.questions|
    }

    /** The page's initial state: the seed test and an empty form. */
    constructor ()
      ensures Valid()
      ensures tests == [SeedTest] && newTest == BlankDraft
    {
      tests := [SeedTest];
      newTest := BlankDraft;
      SeedWellNumbered();
    }

    /** The question count the form shows: never zero. */
    function QuestionCount(): (n: nat)
      reads this
      requires Valid()
      ensures 1 <= n && n == |newTest.questions|
    {
      |newTest.questions|
    }

    /** The title input. */
    method EditTitle(title: string)
      requires Valid()
      modifies this`newTest
      ensures Valid()
      ensures newTest == old(newTest).(title := title)
    {
      newTest := newTest.(title := title);
    }

    /** The duration input, given as the minutes it parsed to. */
    method EditDuration(duration: int)
      requires Valid()
      modifies this`newTest
      ensures Valid()
      ensures newTest == old(newTest).(duration := duration)
    {
      newTest := newTest.(duration := duration);
    }

    /** The start-date input. */
    method EditStartDate(startDate: string)
      requires Valid()
      modifies this`newTest
      ensures Valid()
      ensures newTest == old(newTest).(startDate := startDate)
    {
      newTest := newTest.(startDate := startDate);
    }

    /** The end-date input. */
    method EditEndDate(endDate: string)
      requires Valid()
      modifies this`newTest
      ensures Valid()
      ensures newTest == old(newTest).(endDate := endDate)
    {
      newTest := newTest.(endDate := endDate);
    }

    /**
     * `handleAddQuestion`: one blank single-choice question with four empty
     * options is appended to the draft; its other fields and the catalogue
     * stay as they were.
     */
    method AddQuestion()
      requires Valid()
      modifies this`newTest
      ensures Valid()
      ensures newTest == old(newTest).(questions := old(newTest.questions) + [BlankQuestion])
      ensures |newTest.questions| == |old(newTest.questions)| + 1
    {
      newTest := newTest.(questions := newTest.questions + [BlankQuestion]);
    }

    /**
     * `handleCreateTest`: a test made from the draft's title, duration and
     * dates, with no students and the id of its position, is appended after
     * the existing tests, and the form is reset to the empty one.  Ids stay
     * tied to positions, so they stay distinct.
     */
    method CreateTest()
      requires Valid()
      modifies this
      ensures Valid()
      ensures tests == old(tests) + [Test(TestId(|old(tests)| + 1), old(newTest.title),
                                          old(newTest.duration), old(newTest.startDate),
                                          old(newTest.endDate), 0)]
      ensures newTest == BlankDraft
      ensures forall i, j :: 0 <= i < j < |tests| ==> tests[i].id != tests[j].id
    {
      var test := Test(TestId(|tests| + 1), newTest.title, newTest.duration,
                       newTest.startDate, newTest.endDate, 0);
      AppendWellNumbered(tests, test);
      tests := tests + [test];
      newTest := BlankDraft;
      DistinctIds(tests);
    }
  }
}
