/**
 * The quiz page's session state and its transitions: loading the fetched
 * questions, selecting an answer, and the form action that scores a
 * submission and either moves to the next question or finishes the quiz.
 */
module Quiz {

  import opened Wrappers
  import opened Questions
  import opened Leaderboard

  const NEXT_LABEL := "Next Question"
  const FINISH_LABEL := "Finish"

  /** The state handed to the result page when the quiz is finished. */
  datatype Summary = Summary(score: nat, totalQuestions: nat, failedQuestions: seq<Question>, category: Option<string>)

  /** What a submission leads to: the next question, or the result page
      together with the leaderboard document sent for saving (none when the
      route has no category). */
  datatype Outcome = Advanced | Finished(summary: Summary, saved: Option<Document>)

  class QuizSession {
    /** The route's `:category` parameter. */
    const category: Option<string>
    /** The signed-in user's name. */
    const user: string

    var questions: seq<Question>
    var index: nat
    var current: Option<Question>
    var selected: string
    var score: nat
    var failed: seq<Question>
    var buttonText: string

    /** The shown question is the one at `index`, or nothing has been loaded. */
    ghost predicate AtQuestion()
      reads this
    {
      || (questions == [] && index == 0 && current == None)
      || (index < |questions| && current == Some(questions[index]))
    }

    /** The page's initial state, before any questions arrive. */
    constructor (category: Option<string>, user: string)
      ensures this.category == category && this.user == user
      ensures questions == [] && index == 0 && current == None
      ensures selected == "" && score == 0 && failed == []
      ensures buttonText == NEXT_LABEL
      ensures AtQuestion()
    {
      this.category := category;
      this.user := user;
      questions := [];
      index := 0;
      current := None;
      selected := "";
      score := 0;
      failed := [];
      buttonText := NEXT_LABEL;
    }

    /** The effect run when the fetched questions arrive: keep them and show
        the first (nothing when the list is empty). The index is not reset. */
    method Load(data: seq<Question>)
      modifies this`questions, this`current
      ensures questions == data
      ensures current == if data == [] then None else Some(data[0])
      ensures old(index) == 0 ==> AtQuestion()
    {
      questions := data;
      if data == [] {
        current := None;
      } else {
        current := Some(data[0]);
      }
    }

    /** Clicking an option marks its key as the selected answer. */
    method Select(key: string)
      modifies this`selected
      ensures selected == key
    {
      selected := key;
    }

    /** The keys of the options the form offers for the shown question. */
    method Options() returns (opts: seq<string>)
      ensures opts == if current.Some? then OptionKeys(current.value.answers) else []
    {
      opts := [];
      if current.Some? {
        var answers := current.value.answers;
        var i := 0;
        while i < |answers|
          invariant 0 <= i <= |answers|
          invariant opts == OptionKeys(answers[..i])
        {
          assert answers[..i + 1][..i] == answers[..i];
          if Shown(answers[i]) {
            opts := opts + [answers[i].key];
          }
          i := i + 1;
        }
        assert answers[..i] == answers;
      }
    }

    /** The form action. Scores the submitted keys against the shown question
        (one point per correct key) and records the question as failed when
        none was correct. Before the last question it moves on; on the last
        one it appends the session's result to the category's leaderboard list
        and hands the summary to the result page. The summary's failed list is
        the one from before this submission: the update that records a failed
        last question is queued and not yet visible to this call. */
    method NextQuestion(answers: seq<string>, board: Document) returns (outcome: Outcome)
      modifies this`index, this`current, this`selected, this`score, this`failed, this`buttonText
      ensures score == old(score) + CorrectCount(old(current), answers)
      ensures if CorrectCount(old(current), answers) == 0 && old(current).Some?
              then failed == old(failed) + [old(current).value]
              else failed == old(failed)
      ensures old(index) + 1 < |questions| ==>
                && outcome == Advanced
                && index == old(index) + 1
                && selected == ""
                && current == Some(questions[index])
                && buttonText == (if index == |questions| - 1 then FINISH_LABEL else NEXT_LABEL)
      ensures old(index) + 1 >= |questions| ==>
                && index == old(index) && selected == old(selected)
                && current == old(current) && buttonText == old(buttonText)
                && outcome == Finished(
                     Summary(score, |questions|, old(failed), category),
                     if NamesList(category)
                     then Some(Merge(board, category.value, Entry(user, score, |questions|)))
                     else None)
      ensures old(index) < |questions| ==> index < |questions|
      ensures old(AtQuestion()) ==> AtQuestion()
    {
      var newScore, missed := ScoreAnswers(current, answers, score);
      score := newScore;
      var newIndex := index + 1;
      if newIndex < |questions| {
        if missed && current.Some? {
          failed := failed + [current.value];
        }
        index := newIndex;
        selected := "";
        current := Some(questions[newIndex]);
        if newIndex == |questions| - 1 {
          buttonText := FINISH_LABEL;
        } else {
          buttonText := NEXT_LABEL;
        }
        outcome := Advanced;
      } else {
        var reported := failed;
        if missed && current.Some? {
          failed := failed + [current.value];
        }
        var saved := None;
        if NamesList(category) {
          saved := Some(Merge(board, category.value, Entry(user, newScore, |questions|)));
        }
        outcome := Finished(Summary(newScore, |questions|, reported, category), saved);
      }
    }
  }
}
