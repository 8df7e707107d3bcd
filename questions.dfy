/**
 * The question data the quiz works on, how a submitted answer key is
 * scored against a question, and how a question is projected onto the
 * ordered list of answer options the quiz form shows.
 */
module Questions {

  import opened Wrappers

  /** The display text of one answer: the quiz API sends a string, `null`,
      or leaves the property `undefined`. */
  datatype AnswerText = Text(s: string) | Null | Undefined

  /** One property of a question's `answers` object, in the object's key order. */
  datatype Answer = Answer(key: string, text: AnswerText)

  /** A fetched question: its text, its `answers` object as an ordered list of
      properties, and its `correct_answers` object ("answer_a_correct" -> "true"). */
  datatype Question = Question(question: string, answers: seq<Answer>, correctAnswers: map<string, string>)

  /** The key of `correct_answers` that says whether answer `key` is right. */
  function CorrectnessKey(key: string): (r: string)
    ensures |r| == |key| + 8 && r[..|key|] == key && r[|key|..] == "_correct"
  {
    key + "_correct"
  }

  /** Distinct answer keys look up distinct correctness entries. */
  lemma CorrectnessKeyInjective(k1: string, k2: string)
    ensures CorrectnessKey(k1) == CorrectnessKey(k2) ==> k1 == k2
  {
  }

  /** `question?.correct_answers[`${key}_correct`] === "true"`: a missing
      question or a missing entry never scores. */
  predicate IsCorrect(q: Option<Question>, key: string)
  {
    q.Some? && CorrectnessKey(key) in q.value.correctAnswers
    && q.value.correctAnswers[CorrectnessKey(key)] == "true"
  }

  /** The number of submitted keys that score, counted with multiplicity:
      every correct key is worth one point. */
  function CorrectCount(q: Option<Question>, keys: seq<string>): (r: nat)
    ensures r <= |keys|
    ensures r == 0 <==> forall i | 0 <= i < |keys| :: !IsCorrect(q, keys[i])
    ensures r == |keys| <==> forall i | 0 <= i < |keys| :: IsCorrect(q, keys[i])
    decreases |keys|
  {
    if keys == [] then 0
    else
      var n := |keys| - 1;
      assert forall i | 0 <= i < n :: keys[..n][i] == keys[i];
      CorrectCount(q, keys[..n]) + (if IsCorrect(q, keys[n]) then 1 else 0)
  }

  /** The positions of the submitted keys that score. */
  ghost function CorrectPositions(q: Option<Question>, keys: seq<string>): set<int>
  {
    set i | 0 <= i < |keys| && IsCorrect(q, keys[i])
  }

  /** Extending a submission by one key adds one scoring position exactly
      when that key is correct. */
  lemma CorrectPositionsStep(q: Option<Question>, keys: seq<string>)
    requires keys != []
    ensures |CorrectPositions(q, keys)|
            == |CorrectPositions(q, keys[..|keys| - 1])| + (if IsCorrect(q, keys[|keys| - 1]) then 1 else 0)
  {
    var n := |keys| - 1;
    var prefix := keys[..n];
    var before := CorrectPositions(q, prefix);
    var all := CorrectPositions(q, keys);
    var last: set<int> := if IsCorrect(q, keys[n]) then {n} else {};
    forall i | i in all
      ensures i in before + last
    {
      if i < n {
        assert prefix[i] == keys[i];
      }
    }
    forall i | i in before + last
      ensures i in all
    {
      if i < n {
        assert prefix[i] == keys[i];
      }
    }
    assert all == before + last;
  }

  /** The count is the number of scoring positions: one point per correct key. */
  lemma {:induction false} CorrectCountIsPositionCount(q: Option<Question>, keys: seq<string>)
    ensures CorrectCount(q, keys) == |CorrectPositions(q, keys)|
    decreases |keys|
  {
    if keys != [] {
      CorrectCountIsPositionCount(q, keys[..|keys| - 1]);
      CorrectPositionsStep(q, keys);
    }
  }

  /** Counting distributes over concatenated submissions. */
  lemma {:induction false} CorrectCountAppend(q: Option<Question>, a: seq<string>, b: seq<string>)
    ensures CorrectCount(q, a + b) == CorrectCount(q, a) + CorrectCount(q, b)
    decreases |b|
  {
    if b == [] {
      assert a + b == a;
    } else {
      var n := |b| - 1;
      assert (a + b)[..|a + b| - 1] == a + b[..n];
      assert (a + b)[|a + b| - 1] == b[n];
      CorrectCountAppend(q, a, b[..n]);
    }
  }

  /** The scoring loop of the form action: starting from the current score it
      adds one for each submitted key marked correct, and reports the question
      as failed exactly when no key was. */
  method ScoreAnswers(q: Option<Question>, keys: seq<string>, score: nat) returns (newScore: nat, failed: bool)
    ensures newScore == score + CorrectCount(q, keys)
    ensures failed <==> forall i | 0 <= i < |keys| :: !IsCorrect(q, keys[i])
    ensures keys == [] ==> newScore == score && failed
  {
    newScore := score;
    failed := true;
    var i := 0;
    while i < |keys|
      invariant 0 <= i <= |keys|
      invariant newScore == score + CorrectCount(q, keys[..i])
      invariant failed <==> CorrectCount(q, keys[..i]) == 0
    {
      assert keys[..i + 1][..i] == keys[..i];
      assert CorrectCount(q, keys[..i + 1])
        == CorrectCount(q, keys[..i]) + (if IsCorrect(q, keys[i]) then 1 else 0);
      if IsCorrect(q, keys[i]) {
        failed := false;
        newScore := newScore + 1;
      }
      i := i + 1;
    }
    assert keys[..i] == keys;
  }

  /** An answer is offered when its text is neither `null` nor `undefined`. */
  predicate Shown(a: Answer)
  {
    a.text != Undefined && a.text != Null
  }

  /** Some offered answer has key `k`. */
  ghost predicate Offers(answers: seq<Answer>, k: string)
  {
    exists a | a in answers :: a.key == k && Shown(a)
  }

  /** The keys of the offered answers, in the order of the `answers` object. */
  function OptionKeys(answers: seq<Answer>): (r: seq<string>)
    ensures |r| <= |answers|
    ensures forall j | 0 <= j < |r| :: Offers(answers, r[j])
    decreases |answers|
  {
    if answers == [] then []
    else
      var n := |answers| - 1;
      var rest := OptionKeys(answers[..n]);
      var r := rest + (if Shown(answers[n]) then [answers[n].key] else []);
      assert forall j | 0 <= j < |r| :: Offers(answers, r[j]) by {
        forall j | 0 <= j < |r|
          ensures Offers(answers, r[j])
        {
          if j < |rest| {
            assert Offers(answers[..n], rest[j]);
            var a :| a in answers[..n] && a.key == rest[j] && Shown(a);
            assert a in answers;
          } else {
            assert answers[n] in answers;
          }
        }
      }
      r
  }

  /** Every offered answer's key is among the options. */
  lemma {:induction false} OptionKeysComplete(answers: seq<Answer>, i: nat)
    requires i < |answers| && Shown(answers[i])
    ensures answers[i].key in OptionKeys(answers)
    decreases |answers|
  {
    var n := |answers| - 1;
    if i < n {
      assert answers[..n][i] == answers[i];
      OptionKeysComplete(answers[..n], i);
    }
  }

  /** The options keep the order of the answers: the projection of a
      concatenation is the concatenation of the projections. */
  lemma {:induction false} OptionKeysAppend(a: seq<Answer>, b: seq<Answer>)
    ensures OptionKeys(a + b) == OptionKeys(a) + OptionKeys(b)
    decreases |b|
  {
    if b == [] {
      assert a + b == a;
    } else {
      var n := |b| - 1;
      assert (a + b)[..|a + b| - 1] == a + b[..n];
      assert (a + b)[|a + b| - 1] == b[n];
      OptionKeysAppend(a, b[..n]);
    }
  }

  /** When every answer has a text, every key is offered, in order. */
  lemma {:induction false} OptionKeysAllShown(answers: seq<Answer>)
    requires forall i | 0 <= i < |answers| :: Shown(answers[i])
    ensures |OptionKeys(answers)| == |answers|
    ensures forall i | 0 <= i < |answers| :: OptionKeys(answers)[i] == answers[i].key
    decreases |answers|
  {
    if answers != [] {
      var n := |answers| - 1;
      var prefix := answers[..n];
      assert forall i | 0 <= i < n :: prefix[i] == answers[i];
      OptionKeysAllShown(prefix);
      var before := OptionKeys(prefix);
      var r := OptionKeys(answers);
      assert r == before + [answers[n].key];
      forall i | 0 <= i < |answers|
        ensures r[i] == answers[i].key
      {
        if i < n {
          assert r[i] == before[i] == prefix[i].key;
        }
      }
    }
  }
}
