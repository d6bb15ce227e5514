/** The first draft of the quiz page (script.js): the whole bank is mixed into
    one question list, a quiz of at most 20 questions is drawn from it, the
    answer is compared line by line without trimming, and the page moves on
    after every complete answer, right or wrong. */
module QuizPage {
  import opened QuizBasics

  // ---------- shuffle ----------

  /** `[a[i], a[j]] = [a[j], a[i]]`. */
  function Swap<T>(s: seq<T>, i: nat, j: nat): (r: seq<T>)
    requires i < |s| && j < |s|
    ensures |r| == |s|
  {
    s[i := s[j]][j := s[i]]
  }

  lemma SwapPermutes<T>(s: seq<T>, i: nat, j: nat)
    requires i < |s| && j < |s|
    ensures multiset(Swap(s, i, j)) == multiset(s)
  {
  }

  /** What the downward loop of shuffle leaves once it has reached index i:
      the remaining steps swap index i, then i - 1, ..., down to 1, each with
      an index at or below it. */
  function SwapDown<T>(s: seq<T>, i: int, draws: Draws): (r: seq<T>)
    requires i < |s|
    ensures |r| == |s|
    decreases i
  {
    if i <= 0 then s
    else SwapDown(Swap(s, i, Pick(draws, i)), i - 1, draws)
  }

  function Shuffled<T>(s: seq<T>, draws: Draws): seq<T> {
    SwapDown(s, |s| - 1, draws)
  }

  /** Whatever the draws, the loop only exchanges elements: the result holds
      the same elements as many times as the input. */
  lemma {:induction false} SwapDownPermutes<T>(s: seq<T>, i: int, draws: Draws)
    requires i < |s|
    ensures multiset(SwapDown(s, i, draws)) == multiset(s)
    decreases i
  {
    if i > 0 {
      var j := Pick(draws, i);
      SwapPermutes(s, i, j);
      SwapDownPermutes(Swap(s, i, j), i - 1, draws);
    }
  }

  /** `[a[i], a[j]] = [a[j], a[i]]` on the copy. */
  method Exchange<T>(a: array<T>, i: nat, j: nat)
    requires i < a.Length && j < a.Length
    modifies a
    ensures a[..] == Swap(old(a[..]), i, j)
  {
    var t := a[i];
    a[i] := a[j];
    a[j] := t;
  }

  /** shuffle(array): swaps inside a copy, from the last index down to 1, each
      index with one at or below it; the argument is left as it was. */
  method Shuffle<T>(s: seq<T>, draws: Draws) returns (r: seq<T>)
    ensures r == Shuffled(s, draws)
  {
    var a := new T[|s|](k requires 0 <= k < |s| => s[k]);
    assert a[..] == s;
    var i := a.Length - 1;
    while i > 0
      invariant -1 <= i < a.Length
      invariant SwapDown(a[..], i, draws) == SwapDown(s, |s| - 1, draws)
    {
      var j := Pick(draws, i);
      Exchange(a, i, j);
      i := i - 1;
    }
    r := a[..];
  }

  // ---------- the question list ----------

  /** The question arrays of one outer value, in key order. */
  function Concat(groups: JsonObject<seq<Question>>): seq<Question> {
    if groups == [] then [] else Concat(groups[..|groups| - 1]) + groups[|groups| - 1].value
  }

  /** Every question array of every outer value, in iteration order. */
  function Flatten(data: Bank): seq<Question> {
    if data == [] then [] else Flatten(data[..|data| - 1]) + Concat(data[|data| - 1].value)
  }

  /** The nested forEach/push of the fetch callback. */
  method CollectQuestions(data: Bank) returns (questions: seq<Question>)
    ensures questions == Flatten(data)
  {
    questions := [];
    var i := 0;
    while i < |data|
      invariant 0 <= i <= |data|
      invariant questions == Flatten(data[..i])
    {
      var lang := data[i].value;
      var k := 0;
      while k < |lang|
        invariant 0 <= k <= |lang|
        invariant questions == Flatten(data[..i]) + Concat(lang[..k])
      {
        questions := questions + lang[k].value;
        k := k + 1;
        assert lang[..k][..k - 1] == lang[..k - 1];
      }
      assert lang[..k] == lang;
      i := i + 1;
      assert data[..i][..i - 1] == data[..i - 1];
    }
    assert data[..i] == data;
  }

  lemma {:induction false} ConcatMembers(groups: JsonObject<seq<Question>>, q: Question)
    ensures q in Concat(groups) <==> exists k :: 0 <= k < |groups| && q in groups[k].value
  {
    if groups != [] {
      var init := groups[..|groups| - 1];
      ConcatMembers(init, q);
      assert forall k :: 0 <= k < |init| ==> init[k] == groups[k];
    }
  }

  /** The mixed list holds exactly the questions of the bank, whatever array
      they sit in. */
  lemma {:induction false} FlattenMembers(data: Bank, q: Question)
    ensures q in Flatten(data) <==> exists i, k :: 0 <= i < |data| && 0 <= k < |data[i].value| && q in data[i].value[k].value
  {
    if data != [] {
      var init := data[..|data| - 1];
      FlattenMembers(init, q);
      ConcatMembers(data[|data| - 1].value, q);
      assert forall i :: 0 <= i < |init| ==> init[i] == data[i];
    }
  }

  /** The list keeps the bank's order: the questions of a bank made of two
      parts are those of the first part followed by those of the second. */
  lemma {:induction false} FlattenAppend(a: Bank, b: Bank)
    ensures Flatten(a + b) == Flatten(a) + Flatten(b)
    decreases |b|
  {
    if b == [] {
      assert a + b == a;
    } else {
      var n, ab := |b| - 1, a + b;
      assert ab[..|ab| - 1] == a + b[..n];
      assert ab[|ab| - 1] == b[n];
      FlattenAppend(a, b[..n]);
      calc {
        Flatten(ab);
        Flatten(a + b[..n]) + Concat(b[n].value);
        Flatten(a) + Flatten(b[..n]) + Concat(b[n].value);
        Flatten(a) + (Flatten(b[..n]) + Concat(b[n].value));
        Flatten(a) + Flatten(b);
      }
    }
  }

  /** `shuffle(questions).slice(0, 20)`. */
  function Draw(questions: seq<Question>, pool: Draws): (quiz: seq<Question>)
    ensures |quiz| == Min(20, |questions|)
    ensures multiset(quiz) <= multiset(questions)
  {
    var all := Shuffled(questions, pool);
    var n := Min(20, |all|);
    SwapDownPermutes(questions, |questions| - 1, pool);
    assert all == all[..n] + all[n..];
    all[..n]
  }

  // ---------- checking an answer ----------

  /** `selected.every((line, i) => line === code[i])`. */
  function Matches(selected: seq<string>, code: seq<string>): bool
    requires |selected| == |code|
  {
    selected == [] || (selected[0] == code[0] && Matches(selected[1..], code[1..]))
  }

  /** With the answer complete, the line-by-line test accepts exactly the
      correct order itself. */
  lemma {:induction false} MatchesIff(selected: seq<string>, code: seq<string>)
    requires |selected| == |code|
    ensures Matches(selected, code) <==> selected == code
  {
    if selected != [] {
      MatchesIff(selected[1..], code[1..]);
      assert selected == [selected[0]] + selected[1..];
      assert code == [code[0]] + code[1..];
    }
  }

  // ---------- end of the quiz ----------

  /** The question the confirm dialog asks. */
  datatype Prompt = MoveToNextLevel | TryAgain

  datatype Outcome = Outcome(percent: Percent, prompt: Prompt)

  /** The percentage and the question endQuiz shows: the next level is offered
      exactly when the rounded percentage is at least 80. */
  function Summary(score: nat, len: nat): (o: Outcome)
    ensures o.percent == EndPercent(score, len)
    ensures o.prompt == MoveToNextLevel <==> (if len == 0 then score > 0 else 200 * score >= 159 * len)
  {
    ReachesEighty(score, len);
    var p := EndPercent(score, len);
    Outcome(p, if AtLeast80(p) then MoveToNextLevel else TryAgain)
  }

  // ---------- the page ----------

  /** The 'quiz-progress' record. */
  datatype Snapshot = Snapshot(currentIndex: nat, score: nat, quiz: seq<Question>)

  /** The state of one page: the closure variables of the DOMContentLoaded
      handler, the lines in the two pads and the one storage slot.
      `pendingAdvances` counts the nextQuestion timers set and not yet fired. */
  class Page {
    var questions: seq<Question>
    var quiz: seq<Question>
    var currentIndex: nat
    var score: nat
    var answerPad: seq<string>
    var optionsPad: seq<string>
    var storage: Option<Snapshot>
    var pendingAdvances: nat

    /** While a question is current, the pads hold exactly its lines. */
    ghost predicate Valid()
      reads this
    {
      currentIndex < |quiz| ==> multiset(answerPad + optionsPad) == multiset(quiz[currentIndex].code)
    }

    /** The state right after renderQuestion showed question `currentIndex`. */
    ghost predicate ShowsQuestion(lines: Draws)
      reads this
      requires currentIndex < |quiz|
    {
      answerPad == [] && optionsPad == Shuffled(quiz[currentIndex].code, lines)
      && storage == Some(Snapshot(currentIndex, score, quiz))
    }

    /** The page as the DOMContentLoaded handler leaves it while the fetch of
        questions.json is still under way: no questions, no quiz, empty pads,
        no timers, and `slot` in storage. */
    ghost predicate Fresh(slot: Option<Snapshot>)
      reads this
    {
      questions == [] && quiz == [] && currentIndex == 0 && score == 0
      && answerPad == [] && optionsPad == [] && storage == slot && pendingAdvances == 0
    }

    /** Loading the page with `slot` in storage. The buttons work from here
        on; the questions arrive later, through Loaded. */
    constructor (slot: Option<Snapshot>)
      ensures Fresh(slot) && Valid()
    {
      questions, quiz, currentIndex, score := [], [], 0, 0;
      answerPad, optionsPad := [], [];
      storage, pendingAdvances := slot, 0;
    }

    /** The fetch callback with the parsed bank. Previous and Next may have
        been clicked before it runs, so it is taken in any state. The list is
        rebuilt; a saved snapshot replaces position, score and quiz; without
        one a new quiz is drawn and position and score stay as they are. Then
        the current question, if there is one, is rendered. */
    method Loaded(data: Bank, pool: Draws, lines: Draws)
      requires WellKeyed(data)
      modifies this`questions, this`quiz, this`currentIndex, this`score
      modifies this`answerPad, this`optionsPad, this`storage
      ensures Valid()
      ensures questions == Flatten(data)
      ensures old(storage).Some? ==> Snapshot(currentIndex, score, quiz) == old(storage).value
      ensures old(storage).None? ==>
                quiz == Draw(questions, pool) && currentIndex == old(currentIndex) && score == old(score)
      ensures currentIndex < |quiz| ==> ShowsQuestion(lines)
      ensures currentIndex >= |quiz| ==>
                answerPad == old(answerPad) && optionsPad == old(optionsPad) && storage == old(storage)
    {
      questions := CollectQuestions(data);
      var found := LoadProgress();
      if !found {
        DrawQuiz(pool);
      }
      RenderQuestion(lines);
    }

    /** `quiz = shuffle(questions).slice(0, 20)`. */
    method DrawQuiz(pool: Draws)
      modifies this`quiz
      ensures quiz == Draw(questions, pool)
    {
      var shuffled := Shuffle(questions, pool);
      quiz := shuffled[..Min(20, |shuffled|)];
    }

    method SaveProgress()
      modifies this`storage
      ensures storage == Some(Snapshot(currentIndex, score, quiz))
    {
      storage := Some(Snapshot(currentIndex, score, quiz));
    }

    /** Takes the three saved values as they are, without defaults or checks. */
    method LoadProgress() returns (found: bool)
      modifies this`currentIndex, this`score, this`quiz
      ensures found == old(storage).Some?
      ensures !found ==> unchanged(this)
      ensures found ==> Snapshot(currentIndex, score, quiz) == old(storage).value
    {
      if storage.None? {
        return false;
      }
      var data := storage.value;
      currentIndex := data.currentIndex;
      score := data.score;
      quiz := data.quiz;
      return true;
    }

    /** A snapshot saved and then loaded gives back the same three values. */
    method SaveLoadRoundTrip()
      modifies this`storage, this`currentIndex, this`score, this`quiz
      ensures currentIndex == old(currentIndex) && score == old(score) && quiz == old(quiz)
    {
      SaveProgress();
      var found := LoadProgress();
    }

    /** Does nothing without a current question; otherwise empties the answer
        pad, deals the question's lines shuffled into the options pad and
        saves. */
    method RenderQuestion(lines: Draws)
      modifies this`answerPad, this`optionsPad, this`storage
      ensures currentIndex >= |quiz| ==>
                answerPad == old(answerPad) && optionsPad == old(optionsPad) && storage == old(storage)
      ensures currentIndex < |quiz| ==> ShowsQuestion(lines)
      ensures old(Valid()) ==> Valid()
      ensures currentIndex < |quiz| ==> Valid()
    {
      if currentIndex >= |quiz| {
        return;
      }
      var q := quiz[currentIndex];
      answerPad := [];
      optionsPad := Shuffle(q.code, lines);
      SwapDownPermutes(q.code, |q.code| - 1, lines);
      SaveProgress();
    }

    /** A click on the k-th line of `from`: the line goes to the end of the
        other pad, then the answer is checked. */
    method MoveAnswer(from: Pad, k: nat) returns (status: Status)
      requires Valid()
      requires k < |Pads(answerPad, optionsPad).Lines(from)|
      modifies this`answerPad, this`optionsPad, this`score, this`pendingAdvances
      ensures Pads(answerPad, optionsPad) == Move(old(Pads(answerPad, optionsPad)), from, k, Other(from))
      ensures multiset(answerPad + optionsPad) == old(multiset(answerPad + optionsPad))
      ensures CheckedAnswer(status, old(score), old(pendingAdvances))
      ensures Valid()
    {
      var moved := Move(Pads(answerPad, optionsPad), from, k, Other(from));
      answerPad, optionsPad := moved.answer, moved.options;
      status := CheckAnswerCompletion();
    }

    /** What checkAnswerCompletion did to the score and the timers, given what
        they were before. */
    ghost predicate CheckedAnswer(status: Status, score0: nat, pending0: nat)
      reads this
    {
      && (status == Thrown <==> currentIndex >= |quiz|)
      && (status == Incomplete <==> currentIndex < |quiz| && |answerPad| != |quiz[currentIndex].code|)
      && (status.Judged? ==> status.correct == (answerPad == quiz[currentIndex].code))
      && score == (if status == Judged(true) then score0 + 1 else score0)
      && pendingAdvances == (if status.Judged? then pending0 + 1 else pending0)
    }

    /** Nothing happens until the answer pad holds as many lines as the
        question; then a correct order scores a point, and the next question
        is scheduled either way. */
    method CheckAnswerCompletion() returns (status: Status)
      modifies this`score, this`pendingAdvances
      ensures CheckedAnswer(status, old(score), old(pendingAdvances))
    {
      if currentIndex >= |quiz| {
        return Thrown;
      }
      var q := quiz[currentIndex];
      var selected := answerPad;
      if |selected| != |q.code| {
        return Incomplete;
      }
      var correct := Matches(selected, q.code);
      MatchesIff(selected, q.code);
      if correct {
        score := score + 1;
      }
      pendingAdvances := pendingAdvances + 1;
      status := Judged(correct);
    }

    /** One step forward; past the last question the quiz ends, and when the
        learner accepts the dialog the slot is cleared and the page reloads. */
    method NextQuestion(retry: bool, lines: Draws) returns (ended: Option<Outcome>)
      requires Valid()
      modifies this
      ensures Valid()
      ensures old(currentIndex) + 1 < old(|quiz|) ==>
                ended == None && currentIndex == old(currentIndex) + 1 && quiz == old(quiz)
                && ShowsQuestion(lines) && score == old(score) && questions == old(questions)
                && pendingAdvances == old(pendingAdvances)
      ensures old(currentIndex) + 1 >= old(|quiz|) ==> ended == Some(Summary(old(score), old(|quiz|)))
      ensures old(currentIndex) + 1 >= old(|quiz|) && !retry ==>
                currentIndex == old(currentIndex) + 1 && quiz == old(quiz) && score == old(score)
                && questions == old(questions) && answerPad == old(answerPad) && optionsPad == old(optionsPad)
                && storage == old(storage) && pendingAdvances == old(pendingAdvances)
      ensures old(currentIndex) + 1 >= old(|quiz|) && retry ==> Fresh(None)
    {
      currentIndex := currentIndex + 1;
      if currentIndex >= |quiz| {
        var outcome := EndQuiz(retry);
        return Some(outcome);
      }
      RenderQuestion(lines);
      return None;
    }

    /** One step back, unless at the first question. */
    method PrevQuestion(lines: Draws)
      requires Valid()
      modifies this`currentIndex, this`answerPad, this`optionsPad, this`storage
      ensures Valid()
      ensures old(currentIndex) == 0 ==> unchanged(this)
      ensures old(currentIndex) > 0 ==> currentIndex == old(currentIndex) - 1
      ensures old(currentIndex) > 0 && currentIndex < |quiz| ==> ShowsQuestion(lines)
      ensures old(currentIndex) > 0 && currentIndex >= |quiz| ==>
                answerPad == old(answerPad) && optionsPad == old(optionsPad) && storage == old(storage)
    {
      if currentIndex == 0 {
        return;
      }
      currentIndex := currentIndex - 1;
      RenderQuestion(lines);
    }

    /** A scheduled nextQuestion timer fires: nextQuestion runs once and the
        timer is used up (a reload drops every timer). */
    method FireAdvance(retry: bool, lines: Draws) returns (ended: Option<Outcome>)
      requires Valid() && pendingAdvances > 0
      modifies this
      ensures Valid()
      ensures old(currentIndex) + 1 < old(|quiz|) ==>
                ended == None && currentIndex == old(currentIndex) + 1 && quiz == old(quiz)
                && ShowsQuestion(lines) && score == old(score) && questions == old(questions)
                && pendingAdvances == old(pendingAdvances) - 1
      ensures old(currentIndex) + 1 >= old(|quiz|) ==> ended == Some(Summary(old(score), old(|quiz|)))
      ensures old(currentIndex) + 1 >= old(|quiz|) && !retry ==>
                currentIndex == old(currentIndex) + 1 && quiz == old(quiz) && score == old(score)
                && questions == old(questions) && answerPad == old(answerPad) && optionsPad == old(optionsPad)
                && storage == old(storage) && pendingAdvances == old(pendingAdvances) - 1
      ensures old(currentIndex) + 1 >= old(|quiz|) && retry ==> Fresh(None)
    {
      pendingAdvances := pendingAdvances - 1;
      ended := NextQuestion(retry, lines);
    }

    /** Shows the percentage and asks whether to go on; `retry` is the answer.
        Accepting clears the slot and reloads the page: the new page starts
        as the constructor leaves it, with an empty slot, and its own fetch
        callback (Loaded) then draws a new quiz. */
    method EndQuiz(retry: bool) returns (outcome: Outcome)
      requires Valid()
      modifies this
      ensures outcome == Summary(old(score), old(|quiz|))
      ensures !retry ==> unchanged(this)
      ensures retry ==> Fresh(None)
      ensures Valid()
    {
      outcome := Summary(score, |quiz|);
      if retry {
        questions, quiz, currentIndex, score := [], [], 0, 0;
        answerPad, optionsPad := [], [];
        storage, pendingAdvances := None, 0;
      }
    }
  }
}
