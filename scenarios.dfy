/**
 * Whole sessions driven through the class's contracts alone, as the page
 * would drive them: load the questions, then one form submission each.
 */
module Scenarios {

  import opened Wrappers
  import opened Questions
  import opened Leaderboard
  import opened Quiz

  /** A question whose first answer is right, second wrong, third not offered. */
  function Sample(text: string): Question
  {
    Question(text,
      [Answer("answer_a", Text("yes")), Answer("answer_b", Text("no")), Answer("answer_c", Null)],
      map["answer_a_correct" := "true", "answer_b_correct" := "false", "answer_c_correct" := "false"])
  }

  /** Three questions in "science", answered right, wrong, right with one key
      each: two points, the second question reported as failed, and the
      document gains "science" with one entry. */
  method ScienceRound(q1: Question, q2: Question, q3: Question, k1: string, k2: string, k3: string, user: string)
    returns (outcome: Outcome)
    requires IsCorrect(Some(q1), k1) && !IsCorrect(Some(q2), k2) && IsCorrect(Some(q3), k3)
    ensures outcome == Finished(
              Summary(2, 3, [q2], Some("science")),
              Some(map["science" := [Entry(user, 2, 3)]]))
  {
    assert CorrectCount(Some(q1), [k1]) == 1 && CorrectCount(Some(q3), [k3]) == 1 by {
      assert [k1][..0] == [] && [k3][..0] == [];
    }
    var s := new QuizSession(Some("science"), user);
    s.Load([q1, q2, q3]);
    var first := s.NextQuestion([k1], map[]);
    assert s.score == 1 && s.failed == [] && s.index == 1;
    var second := s.NextQuestion([k2], map[]);
    assert s.score == 1 && s.failed == [q2] && s.index == 2 && s.buttonText == FINISH_LABEL;
    outcome := s.NextQuestion([k3], map[]);
    ghost var board := Merge(map[], "science", Entry(user, 2, 3));
    assert board == map["science" := [Entry(user, 2, 3)]] by {
      assert board.Keys == {"science"};
    }
  }

  /** One question, submitted with nothing selected: no points, the question
      is recorded as failed in the session, yet the summary's failed list is
      empty; the button never read "Finish"; and a route without a category
      saves nothing. */
  method SingleQuestionSkipped(user: string) returns (outcome: Outcome, recorded: seq<Question>, shownLabel: string)
    ensures outcome == Finished(Summary(0, 1, [], None), None)
    ensures recorded == [Sample("Q1")]
    ensures shownLabel == NEXT_LABEL
  {
    var s := new QuizSession(None, user);
    s.Load([Sample("Q1")]);
    shownLabel := s.buttonText;
    outcome := s.NextQuestion([], map[]);
    recorded := s.failed;
  }

  /** The options offered for the first question: the keys with a text, in order. */
  method FirstOptions(user: string) returns (opts: seq<string>)
    ensures opts == ["answer_a", "answer_b"]
  {
    var s := new QuizSession(Some("science"), user);
    s.Load([Sample("Q1")]);
    opts := s.Options();
    var shown, hidden := Sample("Q1").answers[..2], Sample("Q1").answers[2..];
    assert Sample("Q1").answers == shown + hidden;
    OptionKeysAppend(shown, hidden);
    OptionKeysAllShown(shown);
    assert hidden[..0] == [];
  }
}
