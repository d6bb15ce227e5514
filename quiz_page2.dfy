/** The second draft of the quiz page (script2.js): the quiz is drawn from the
    questions of one level and one language, answer lines are trimmed before
    they are compared, the page moves on only after a correct answer, and the
    learner's language and level are saved with the progress. */
module QuizPage2 {
  import opened QuizBasics

  // ---------- shuffle ----------

  /** `[a[i], a[j]] = [a[i], a[j]]`: both slots are given back what they held. */
  method Reassign<T>(a: array<T>, i: nat, j: nat)
    requires i < a.Length && j < a.Length
    modifies a
    ensures a[..] == old(a[..])
  {
    var x, y := a[i], a[j];
    a[i] := x;
    a[j] := y;
  }

  /** shuffle(array) as this draft writes it: the same downward loop over a
      copy as a real shuffle, but each step assigns both slots their own
      values, so the copy comes back in the order of the argument. */
  method Shuffle<T>(s: seq<T>, draws: Draws) returns (r: seq<T>)
    ensures r == s
  {
    var a := new T[|s|](k requires 0 <= k < |s| => s[k]);
    var i := a.Length - 1;
    while i > 0
      invariant -1 <= i < a.Length
      invariant a[..] == s
    {
      var j := Pick(draws, i);
      Reassign(a, i, j);
      i := i - 1;
    }
    r := a[..];
  }

  // ---------- the question pool ----------

  /** `questionsData[level]?.[language] || []`: the bank is keyed by level,
      then by language. */
  function Pool(data: Bank, level: string, language: string): (qs: seq<Question>)
    ensures qs != [] ==> exists i, k :: 0 <= i < |data| && 0 <= k < |data[i].value|
                                        && data[i].key == level && data[i].value[k] == Entry(language, qs)
    ensures WellKeyed(data) ==>
              forall i, k ::
                (0 <= i < |data| && 0 <= k < |data[i].value| && data[i].key == level && data[i].value[k].key == language)
                ==> qs == data[i].value[k].value
  {
    match Get(data, level)
    case None => []
    case Some(byLanguage) =>
      match Get(byLanguage, language)
      case None => []
      case Some(qs) => qs
  }

  // ---------- checking an answer ----------

  /** `[...answerPad.children].map(div => div.textContent.trim())`. */
  function Trimmed(lines: seq<string>): seq<string> {
    seq(|lines|, i requires 0 <= i < |lines| => Trim(lines[i]))
  }

  /** `answeredLines.every((line, i) => line === code[i].trim())`. */
  function EveryLineMatches(answered: seq<string>, code: seq<string>): bool
    requires |answered| == |code|
  {
    answered == [] || (answered[0] == Trim(code[0]) && EveryLineMatches(answered[1..], code[1..]))
  }

  lemma {:induction false} EveryLineMatchesIff(answered: seq<string>, code: seq<string>)
    requires |answered| == |code|
    ensures EveryLineMatches(answered, code) <==> forall i :: 0 <= i < |answered| ==> answered[i] == Trim(code[i])
  {
    if answered != [] {
      EveryLineMatchesIff(answered[1..], code[1..]);
      assert forall i :: 1 <= i < |answered| ==> answered[1..][i - 1] == answered[i] && code[1..][i - 1] == code[i];
    }
  }

  /** The test checkAnswerCompletion applies to a complete answer pad. */
  predicate IsCorrect(answer: seq<string>, code: seq<string>)
    requires |answer| == |code|
  {
    EveryLineMatches(Trimmed(answer), code)
  }

  /** A complete answer is correct exactly when every line, trimmed, equals
      the trimmed expected line at the same position. */
  lemma IsCorrectIff(answer: seq<string>, code: seq<string>)
    requires |answer| == |code|
    ensures IsCorrect(answer, code) <==> forall i :: 0 <= i < |answer| ==> Trim(answer[i]) == Trim(code[i])
  {
    EveryLineMatchesIff(Trimmed(answer), code);
  }

  /** The expected lines in their own order are accepted, and so is any
      answer whose lines differ from them only by surrounding whitespace. */
  lemma PaddedLinesAreCorrect(answer: seq<string>, code: seq<string>, pre: seq<string>, post: seq<string>)
    requires |answer| == |code| == |pre| == |post|
    requires forall i :: 0 <= i < |code| ==> AllTrimmable(pre[i]) && AllTrimmable(post[i]) && answer[i] == pre[i] + code[i] + post[i]
    ensures IsCorrect(answer, code)
  {
    forall i | 0 <= i < |answer| ensures Trim(answer[i]) == Trim(code[i]) {
      TrimIgnoresPadding(pre[i], code[i], post[i]);
    }
    IsCorrectIff(answer, code);
  }

  // ---------- end of the quiz ----------

  datatype Message = GreatJob | KeepPracticing

  datatype Outcome = Outcome(percent: Percent, message: Message)

  /** What endQuiz writes: the percentage, and "Great job" exactly when it is
      at least 80. */
  function Summary(score: nat, len: nat): (o: Outcome)
    ensures o.percent == EndPercent(score, len)
    ensures o.message == GreatJob <==> (if len == 0 then score > 0 else 200 * score >= 159 * len)
  {
    ReachesEighty(score, len);
    var p := EndPercent(score, len);
    Outcome(p, if AtLeast80(p) then GreatJob else KeepPracticing)
  }

  // ---------- saved progress ----------

  /** The values saveProgress writes and loadProgress reads back. */
  datatype Progress = Progress(currentIndex: nat, score: nat, quiz: seq<Question>,
                               selectedLanguage: string, selectedLevel: string)

  /** The 'quiz-progress' record as loadProgress finds it: a key may be
      missing (None), as in a record written by the other draft. */
  datatype Saved = Saved(currentIndex: Option<nat>, score: Option<nat>, quiz: Option<seq<Question>>,
                         selectedLanguage: Option<string>, selectedLevel: Option<string>)

  function Encode(p: Progress): Saved {
    Saved(Some(p.currentIndex), Some(p.score), Some(p.quiz), Some(p.selectedLanguage), Some(p.selectedLevel))
  }

  /** `x || fallback` on a string: a missing or empty string gives the fallback. */
  function OrString(x: Option<string>, fallback: string): string {
    if x.Some? && x.value != "" then x.value else fallback
  }

  /** The five `data.key || default` reads of loadProgress. A number is
      falsy only when it is 0, and an array is never falsy. */
  function Decode(s: Saved): (p: Progress)
    ensures p.selectedLanguage != "" && p.selectedLevel != ""
    ensures s.currentIndex.None? ==> p.currentIndex == 0
    ensures s.score.None? ==> p.score == 0
    ensures s.quiz.None? ==> p.quiz == []
    ensures s.selectedLanguage.None? || s.selectedLanguage == Some("") ==> p.selectedLanguage == "python"
    ensures s.selectedLevel.None? || s.selectedLevel == Some("") ==> p.selectedLevel == "beginner"
    ensures s.currentIndex.Some? ==> p.currentIndex == s.currentIndex.value
    ensures s.score.Some? ==> p.score == s.score.value
    ensures s.quiz.Some? ==> p.quiz == s.quiz.value
    ensures s.selectedLanguage.Some? && s.selectedLanguage.value != "" ==> p.selectedLanguage == s.selectedLanguage.value
    ensures s.selectedLevel.Some? && s.selectedLevel.value != "" ==> p.selectedLevel == s.selectedLevel.value
  {
    Progress(if s.currentIndex.Some? then s.currentIndex.value else 0,
             if s.score.Some? then s.score.value else 0,
             if s.quiz.Some? then s.quiz.value else [],
             OrString(s.selectedLanguage, "python"),
             OrString(s.selectedLevel, "beginner"))
  }

  /** Round trip: what saveProgress stores, loadProgress restores, for every
      progress whose language and level are not empty strings. */
  lemma DecodeEncode(p: Progress)
    requires p.selectedLanguage != "" && p.selectedLevel != ""
    ensures Decode(Encode(p)) == p
  {
  }

  /** Startup resumes the saved quiz only when there is a record and its quiz
      is not empty. */
  predicate Resumes(slot: Option<Saved>) {
    slot.Some? && |Decode(slot.value).quiz| > 0
  }

  // ---------- the page ----------

  /** The state of one loaded page: the closure variables of the
      DOMContentLoaded handler, the lines in the two pads, the completion
      message once the quiz has ended, and the one storage slot.
      `pendingAdvances` counts the nextQuestion timers set and not yet fired. */
  class Page {
    var questionsData: Bank
    var availableQuestions: seq<Question>
    var quiz: seq<Question>
    var currentIndex: nat
    var score: nat
    var selectedLanguage: string
    var selectedLevel: string
    var answerPad: seq<string>
    var optionsPad: seq<string>
    var completion: Option<Outcome>
    var storage: Option<Saved>
    var pendingAdvances: nat

    /** While a question is current the pads hold exactly its lines, and
        language and level are never empty. */
    ghost predicate Valid()
      reads this`selectedLanguage, this`selectedLevel, this`quiz, this`currentIndex, this`answerPad, this`optionsPad
    {
      && selectedLanguage != "" && selectedLevel != ""
      && (currentIndex < |quiz| ==> multiset(answerPad + optionsPad) == multiset(quiz[currentIndex].code))
    }

    function Persisted(): Progress
      reads this
    {
      Progress(currentIndex, score, quiz, selectedLanguage, selectedLevel)
    }

    /** The state renderQuestion leaves: the current question's lines, in the
        order the draft's shuffle returns them, all in the options pad; or,
        past the end, empty pads and the completion message. */
    ghost predicate Rendered()
      reads this
    {
      && answerPad == []
      && (currentIndex < |quiz| ==> optionsPad == quiz[currentIndex].code && completion == None)
      && (currentIndex >= |quiz| ==> optionsPad == [] && completion == Some(Summary(score, |quiz|)))
    }

    /** Loading the page with `slot` in storage. The buttons work from here
        on; the questions arrive later, through Loaded. A failed fetch only
        writes an error text, so the page then stays as the constructor
        leaves it. */
    constructor (slot: Option<Saved>)
      ensures Valid() && pendingAdvances == 0
      ensures Persisted() == Progress(0, 0, [], "python", "beginner")
      ensures questionsData == [] && availableQuestions == [] && storage == slot
      ensures answerPad == [] && optionsPad == [] && completion == None
    {
      questionsData, availableQuestions, quiz := [], [], [];
      currentIndex, score := 0, 0;
      selectedLanguage, selectedLevel := "python", "beginner";
      answerPad, optionsPad, completion := [], [], None;
      storage, pendingAdvances := slot, 0;
    }

    /** The fetch callback with the parsed bank. Previous and Next may have
        been clicked before it runs, so it is taken in any valid state. The
        saved quiz is resumed when there is a record with questions;
        otherwise a new quiz is started for the saved (or current) language
        and level. */
    method Loaded(data: Bank, pool: Draws, lines: Draws)
      requires Valid() && WellKeyed(data)
      modifies this`questionsData, this`availableQuestions, this`quiz, this`currentIndex, this`score
      modifies this`storage, this`selectedLanguage, this`selectedLevel
      modifies this`answerPad, this`optionsPad, this`completion
      ensures Valid() && questionsData == data
      ensures Resumes(old(storage)) ==>
                Persisted() == Decode(old(storage).value) && Rendered() && storage == old(storage)
                && availableQuestions == old(availableQuestions)
      ensures !Resumes(old(storage)) ==>
                var p := if old(storage).Some? then Decode(old(storage).value) else old(Persisted());
                && selectedLanguage == p.selectedLanguage && selectedLevel == p.selectedLevel
                && availableQuestions == Pool(data, p.selectedLevel, p.selectedLanguage)
                && (availableQuestions == [] ==>
                      Persisted() == p && storage == old(storage) && answerPad == old(answerPad)
                      && optionsPad == old(optionsPad) && completion == old(completion))
                && (availableQuestions != [] ==>
                      quiz == availableQuestions[..Min(20, |availableQuestions|)] && currentIndex == 0 && score == 0
                      && storage == None && Rendered())
    {
      questionsData := data;
      var found := LoadProgress();
      if found && |quiz| > 0 {
        RenderQuestion(lines);
      } else {
        StartNewQuiz(pool, lines);
      }
    }

    method SaveProgress()
      modifies this`storage
      ensures storage == Some(Encode(Persisted()))
    {
      storage := Some(Encode(Progress(currentIndex, score, quiz, selectedLanguage, selectedLevel)));
    }

    /** Restores the five saved values, each with its default when the record
        lacks it or holds a falsy value. */
    method LoadProgress() returns (found: bool)
      modifies this`currentIndex, this`score, this`quiz, this`selectedLanguage, this`selectedLevel
      ensures found == old(storage).Some?
      ensures !found ==> unchanged(this)
      ensures found ==> Persisted() == Decode(old(storage).value)
    {
      if storage.None? {
        return false;
      }
      var data := Decode(storage.value);
      currentIndex := data.currentIndex;
      score := data.score;
      quiz := data.quiz;
      selectedLanguage := data.selectedLanguage;
      selectedLevel := data.selectedLevel;
      return true;
    }

    /** A fresh quiz of at most 20 questions from the pool of the selected
        level and language; with an empty pool the quiz, the position and the
        score stay as they were. */
    method StartNewQuiz(pool: Draws, lines: Draws)
      requires Valid()
      modifies this`availableQuestions, this`quiz, this`currentIndex, this`score, this`storage
      modifies this`answerPad, this`optionsPad, this`completion
      ensures Valid()
      ensures availableQuestions == Pool(questionsData, selectedLevel, selectedLanguage)
      ensures availableQuestions == [] ==>
                quiz == old(quiz) && currentIndex == old(currentIndex) && score == old(score) && storage == old(storage)
                && answerPad == old(answerPad) && optionsPad == old(optionsPad) && completion == old(completion)
      ensures availableQuestions != [] ==>
                quiz == availableQuestions[..Min(20, |availableQuestions|)] && currentIndex == 0 && score == 0
                && storage == None && Rendered()
    {
      availableQuestions := Pool(questionsData, selectedLevel, selectedLanguage);
      if |availableQuestions| == 0 {
        return;
      }
      var shuffled := Shuffle(availableQuestions, pool);
      Begin(shuffled[..Min(20, |shuffled|)], lines);
    }

    /** The second half of startNewQuiz: the new quiz starts at its first
        question with no score and no saved progress. */
    method Begin(qs: seq<Question>, lines: Draws)
      requires qs != [] && selectedLanguage != "" && selectedLevel != ""
      modifies this`quiz, this`currentIndex, this`score, this`storage
      modifies this`answerPad, this`optionsPad, this`completion
      ensures Valid() && Rendered()
      ensures quiz == qs && currentIndex == 0 && score == 0 && storage == None
    {
      quiz := qs;
      currentIndex := 0;
      score := 0;
      storage := None;
      RenderQuestion(lines);
    }

    /** Ends the quiz when there is no current question; otherwise deals the
        current question's lines into the options pad. */
    method RenderQuestion(lines: Draws)
      modifies this`answerPad, this`optionsPad, this`completion
      ensures Rendered()
      ensures selectedLanguage != "" && selectedLevel != "" ==> Valid()
    {
      if currentIndex >= |quiz| {
        EndQuiz();
        return;
      }
      var q := quiz[currentIndex];
      answerPad := [];
      optionsPad := Shuffle(q.code, lines);
      completion := None;
    }

    method EndQuiz()
      modifies this`answerPad, this`optionsPad, this`completion
      ensures completion == Some(Summary(score, |quiz|))
      ensures answerPad == [] && optionsPad == []
    {
      completion := Some(Summary(score, |quiz|));
      answerPad, optionsPad := [], [];
    }

    /** A click on the k-th line of `from`: the line goes to the end of the
        other pad, then the answer is checked. */
    method Click(from: Pad, k: nat) returns (status: Status)
      requires Valid()
      requires k < |Pads(answerPad, optionsPad).Lines(from)|
      modifies this`answerPad, this`optionsPad, this`score, this`pendingAdvances
      ensures Valid()
      ensures Pads(answerPad, optionsPad) == Move(old(Pads(answerPad, optionsPad)), from, k, Other(from))
      ensures CheckedAnswer(status, old(score), old(pendingAdvances))
    {
      status := Drop(from, k, Other(from));
    }

    /** A line dragged from pad `from` and dropped on pad `to` is appended to
        `to`, then the answer is checked. */
    method Drop(from: Pad, k: nat, to: Pad) returns (status: Status)
      requires Valid()
      requires k < |Pads(answerPad, optionsPad).Lines(from)|
      modifies this`answerPad, this`optionsPad, this`score, this`pendingAdvances
      ensures Valid()
      ensures Pads(answerPad, optionsPad) == Move(old(Pads(answerPad, optionsPad)), from, k, to)
      ensures CheckedAnswer(status, old(score), old(pendingAdvances))
    {
      MoveLine(from, k, to);
      status := CheckAnswerCompletion();
    }

    /** `to.appendChild(line)` on the page's own pads. */
    method MoveLine(from: Pad, k: nat, to: Pad)
      requires Valid()
      requires k < |Pads(answerPad, optionsPad).Lines(from)|
      modifies this`answerPad, this`optionsPad
      ensures Valid()
      ensures Pads(answerPad, optionsPad) == Move(old(Pads(answerPad, optionsPad)), from, k, to)
    {
      var moved := Move(Pads(answerPad, optionsPad), from, k, to);
      answerPad, optionsPad := moved.answer, moved.options;
    }

    /** What checkAnswerCompletion did to the score and the timers, given what
        they were before. */
    ghost predicate CheckedAnswer(status: Status, score0: nat, pending0: nat)
      reads this
    {
      && (status == Thrown <==> currentIndex >= |quiz|)
      && (status == Incomplete <==> currentIndex < |quiz| && |answerPad| != |quiz[currentIndex].code|)
      && (status.Judged? ==> status.correct == IsCorrect(answerPad, quiz[currentIndex].code))
      && score == (if status == Judged(true) then score0 + 1 else score0)
      && pendingAdvances == (if status == Judged(true) then pending0 + 1 else pending0)
    }

    /** Nothing happens until the answer pad holds as many lines as the
        question; then a correct order scores a point and schedules the next
        question, and a wrong one changes nothing. */
    method CheckAnswerCompletion() returns (status: Status)
      modifies this`score, this`pendingAdvances
      ensures CheckedAnswer(status, old(score), old(pendingAdvances))
    {
      if currentIndex >= |quiz| {
        return Thrown;
      }
      var q := quiz[currentIndex];
      var answeredLines := Trimmed(answerPad);
      if |answeredLines| != |q.code| {
        return Incomplete;
      }
      var isCorrect := EveryLineMatches(answeredLines, q.code);
      if isCorrect {
        score := score + 1;
        pendingAdvances := pendingAdvances + 1;
      }
      status := Judged(isCorrect);
    }

    /** One step forward, rendered, then saved. */
    method NextQuestion(lines: Draws)
      requires Valid()
      modifies this`currentIndex, this`answerPad, this`optionsPad, this`completion, this`storage
      ensures Valid() && Rendered()
      ensures currentIndex == old(currentIndex) + 1
      ensures storage == Some(Encode(Progress(old(currentIndex) + 1, old(score), old(quiz),
                                              old(selectedLanguage), old(selectedLevel))))
    {
      currentIndex := currentIndex + 1;
      RenderQuestion(lines);
      SaveProgress();
    }

    /** One step back, unless at the first question; nothing is saved. */
    method PrevQuestion(lines: Draws)
      requires Valid()
      modifies this`currentIndex, this`answerPad, this`optionsPad, this`completion
      ensures Valid()
      ensures old(currentIndex) == 0 ==> unchanged(this)
      ensures old(currentIndex) > 0 ==> currentIndex == old(currentIndex) - 1 && Rendered()
    {
      if currentIndex > 0 {
        currentIndex := currentIndex - 1;
        RenderQuestion(lines);
      }
    }

    /** A scheduled nextQuestion timer fires: nextQuestion runs once and the
        timer is used up. */
    method FireAdvance(lines: Draws)
      requires Valid() && pendingAdvances > 0
      modifies this`pendingAdvances, this`currentIndex, this`answerPad, this`optionsPad
      modifies this`completion, this`storage
      ensures Valid() && Rendered()
      ensures currentIndex == old(currentIndex) + 1
      ensures pendingAdvances == old(pendingAdvances) - 1
      ensures storage == Some(Encode(Progress(old(currentIndex) + 1, old(score), old(quiz),
                                              old(selectedLanguage), old(selectedLevel))))
    {
      pendingAdvances := pendingAdvances - 1;
      NextQuestion(lines);
    }
  }
}
