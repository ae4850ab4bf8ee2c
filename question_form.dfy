/** Editing the question list of an evaluation period: the `useSurveyForm` hook and
    the `SurveyFormPressed` component keep the same `questions` and `periodId` state
    and edit it with the same handlers. */
module QuestionForm {

  import opened Remote

  datatype Answers = Answers(answer1: string, answer2: string, answer3: string, answer4: string, answer5: string)

  /** `id` is optional: a question built on the client has none until the server
      assigns one. */
  datatype Question = Question(id: Option<int>, periodId: int, category: string, content: string, answers: Answers)

  /** The `(field, value)` pairs the form's inputs pass to `handleQuestionChange`:
      the category select, the content input, and the answer select at `index`
      (0 to 4 on screen), whose value is `{ index, value }`. */
  datatype Edit = SetCategory(category: string) | SetContent(content: string) | SetAnswer(index: int, text: string)

  /** The category a new question starts in. */
  const DefaultCategory: string := "감수성"

  /** `answerOptions`: the label of answer `n`, absent outside 1..5. */
  function AnswerOption(n: int): (option: Option<string>)
    ensures option.Some? <==> 1 <= n <= 5
  {
    if n == 1 then Some("매우 그렇다")
    else if n == 2 then Some("그렇다")
    else if n == 3 then Some("보통이다")
    else if n == 4 then Some("아니다")
    else if n == 5 then Some("매우 아니다")
    else None
  }

  /** The answer stored under the key `answer{n}`, absent outside 1..5. */
  function AnswerSlot(answers: Answers, n: int): Option<string>
  {
    if n == 1 then Some(answers.answer1)
    else if n == 2 then Some(answers.answer2)
    else if n == 3 then Some(answers.answer3)
    else if n == 4 then Some(answers.answer4)
    else if n == 5 then Some(answers.answer5)
    else None
  }

  /** `{ ...answers, [`answer${n}`]: text }` on the five declared keys: a key outside
      `answer1`..`answer5` is not part of the record and leaves the five unchanged. */
  function WithAnswer(answers: Answers, n: int, text: string): (r: Answers)
    ensures forall m :: 1 <= m <= 5 ==> AnswerSlot(r, m) == if m == n then Some(text) else AnswerSlot(answers, m)
  {
    if n == 1 then answers.(answer1 := text)
    else if n == 2 then answers.(answer2 := text)
    else if n == 3 then answers.(answer3 := text)
    else if n == 4 then answers.(answer4 := text)
    else if n == 5 then answers.(answer5 := text)
    else answers
  }

  /** The update `handleQuestionChange` applies to a matching question. An answer
      change writes slot `index + 1` and nothing else; a field change writes that
      field and nothing else; the id and period never change. */
  function ApplyEdit(q: Question, edit: Edit): (r: Question)
    ensures r.id == q.id && r.periodId == q.periodId
    ensures r.category == (if edit.SetCategory? then edit.category else q.category)
    ensures r.content == (if edit.SetContent? then edit.content else q.content)
    ensures forall n :: 1 <= n <= 5 ==>
      AnswerSlot(r.answers, n) == if edit.SetAnswer? && n == edit.index + 1 then Some(edit.text) else AnswerSlot(q.answers, n)
  {
    match edit
    case SetCategory(category) => q.(category := category)
    case SetContent(content) => q.(content := content)
    case SetAnswer(index, text) => q.(answers := WithAnswer(q.answers, index + 1, text))
  }

  /** `questions.map(q => q.id === id ? edit(q) : q)`. The id the callers pass is
      `question.id!`, which is `undefined` for a question without an id, and
      `undefined === undefined`: such an edit reaches every question without an id. */
  function ChangeQuestions(questions: seq<Question>, id: Option<int>, edit: Edit): (r: seq<Question>)
    ensures |r| == |questions|
    ensures forall i :: 0 <= i < |r| ==> r[i].id == questions[i].id
    ensures forall i :: 0 <= i < |r| && questions[i].id != id ==> r[i] == questions[i]
    ensures forall i :: 0 <= i < |r| && questions[i].id == id ==> r[i] == ApplyEdit(questions[i], edit)
  {
    seq(|questions|, i requires 0 <= i < |questions| =>
      if questions[i].id == id then ApplyEdit(questions[i], edit) else questions[i])
  }

  /** `questions.filter(q => q.id !== id)`. */
  function RemoveQuestions(questions: seq<Question>, id: Option<int>): (r: seq<Question>)
    ensures forall q :: q in r <==> q in questions && q.id != id
    ensures |r| <= |questions|
  {
    if questions == [] then []
    else if questions[0].id == id then RemoveQuestions(questions[1..], id)
    else [questions[0]] + RemoveQuestions(questions[1..], id)
  }

  /** Filtering distributes over concatenation, so the kept questions stay in their order. */
  lemma {:induction false} RemoveDistributes(front: seq<Question>, back: seq<Question>, id: Option<int>)
    ensures RemoveQuestions(front + back, id) == RemoveQuestions(front, id) + RemoveQuestions(back, id)
  {
    if front != [] {
      var rest := front[1..];
      assert (front + back)[0] == front[0];
      assert (front + back)[1..] == rest + back;
      RemoveDistributes(rest, back, id);
      if front[0].id != id {
        calc {
          RemoveQuestions(front + back, id);
          [front[0]] + RemoveQuestions(rest + back, id);
          [front[0]] + (RemoveQuestions(rest, id) + RemoveQuestions(back, id));
          ([front[0]] + RemoveQuestions(rest, id)) + RemoveQuestions(back, id);
        }
      }
    } else {
      assert front + back == back;
    }
  }

  /** Nothing is removed when no question carries the id. */
  lemma {:induction false} RemoveAbsent(questions: seq<Question>, id: Option<int>)
    requires forall q :: q in questions ==> q.id != id
    ensures RemoveQuestions(questions, id) == questions
  {
    if questions != [] {
      RemoveAbsent(questions[1..], id);
    }
  }

  /** Deleting the question that was just added, under an id no earlier question
      carries, gives back the list as it was before the add. */
  lemma AddThenDelete(questions: seq<Question>, added: Question)
    requires added.id.Some?
    requires forall q :: q in questions ==> q.id != added.id
    ensures RemoveQuestions(questions + [added], added.id) == questions
  {
    RemoveDistributes(questions, [added], added.id);
    RemoveAbsent(questions, added.id);
  }

  /** Editing questions and then deleting them by the same id is deleting them. */
  lemma {:induction false} ChangeThenRemove(questions: seq<Question>, id: Option<int>, edit: Edit)
    ensures RemoveQuestions(ChangeQuestions(questions, id, edit), id) == RemoveQuestions(questions, id)
  {
    if questions != [] {
      var changed := ChangeQuestions(questions, id, edit);
      assert changed[1..] == ChangeQuestions(questions[1..], id, edit);
      ChangeThenRemove(questions[1..], id, edit);
    }
  }

  /** The question `addQuestion` posts: no id, the current period, the default
      category, empty content and the five answer labels of `answerOptions` in order. */
  function NewQuestion(periodId: int): (q: Question)
    ensures q.id == None && q.periodId == periodId
    ensures q.category == DefaultCategory && q.content == ""
    ensures forall n :: 1 <= n <= 5 ==> AnswerSlot(q.answers, n) == AnswerOption(n)
  {
    Question(None, periodId, DefaultCategory, "",
      Answers("매우 그렇다", "그렇다", "보통이다", "아니다", "매우 아니다"))
  }

  /** JavaScript truthiness of an optional id: absent and 0 are false. */
  predicate Truthy(id: Option<int>)
  {
    id.Some? && id.value != 0
  }

  datatype Verb = Post | Put
  datatype Endpoint = QuestionCollection | QuestionItem(id: int)
  datatype Request = Request(verb: Verb, endpoint: Endpoint, body: Question)

  /** `saveQuestion`: update the stored question when its id is truthy, otherwise
      create it; so a question whose id is 0 is created again. */
  function SaveRequest(q: Question): (r: Request)
    ensures r.body == q
    ensures r.verb == Put <==> Truthy(q.id)
    ensures r.verb == Put ==> r.endpoint == QuestionItem(q.id.value)
    ensures r.verb == Post ==> r.endpoint == QuestionCollection
  {
    if q.id.Some? && q.id.value != 0 then Request(Put, QuestionItem(q.id.value), q)
    else Request(Post, QuestionCollection, q)
  }

  /** The answer select as written saves a question whose slot still holds the old
      answer whenever the new one differs, while the corrected save holds the new one. */
  lemma StaleAnswerSave(row: Question, index: int, text: string)
    requires 0 <= index < 5
    requires AnswerSlot(row.answers, index + 1) != Some(text)
    ensures AnswerSlot(SaveRequest(row).body.answers, index + 1) != Some(text)
    ensures AnswerSlot(SaveRequest(ApplyEdit(row, SetAnswer(index, text))).body.answers, index + 1) == Some(text)
  {
  }

  /** The component state both files keep. */
  class QuestionEditor {
    var questions: seq<Question>
    var periodId: int

    /** `useSurveyForm(initialPeriodId)`; `SurveyFormPressed` starts with period 1. */
    constructor (initialPeriodId: int)
      ensures questions == [] && periodId == initialPeriodId
    {
      questions := [];
      periodId := initialPeriodId;
    }

    /** `fetchQuestions`: replace the list on success, keep it on failure. */
    method FetchQuestions(response: Response<seq<Question>>)
      modifies this`questions
      ensures questions == if response.Ok? then response.value else old(questions)
    {
      if response.Ok? {
        questions := response.value;
      }
    }

    method HandleQuestionChange(id: Option<int>, edit: Edit)
      modifies this`questions
      ensures questions == ChangeQuestions(old(questions), id, edit)
    {
      questions := ChangeQuestions(questions, id, edit);
    }

    /** `addQuestion`: post the template; on success append the question the server
      returned after all earlier ones, on failure keep the list. */
    method AddQuestion(response: Response<Question>) returns (posted: Question)
      modifies this`questions
      ensures posted == NewQuestion(periodId)
      ensures response.Ok? ==> questions == old(questions) + [response.value]
      ensures response.Failed? ==> questions == old(questions)
    {
      posted := NewQuestion(periodId);
      if response.Ok? {
        questions := questions + [response.value];
      }
    }

    /** `deleteQuestion(id)`: on success drop every question with that id. */
    method DeleteQuestion(id: Option<int>, response: Response<()>)
      modifies this`questions
      ensures questions == if response.Ok? then RemoveQuestions(old(questions), id) else old(questions)
    {
      if response.Ok? {
        questions := RemoveQuestions(questions, id);
      }
    }

    /** The "save all" button: one save per question, in list order. */
    method SaveAll() returns (requests: seq<Request>)
      ensures |requests| == |questions|
      ensures forall i :: 0 <= i < |requests| ==> requests[i] == SaveRequest(questions[i])
      ensures forall i :: 0 <= i < |requests| ==>
        requests[i].body == questions[i] && (requests[i].verb == Put <==> Truthy(questions[i].id))
    {
      requests := [];
      for i := 0 to |questions|
        invariant |requests| == i
        invariant forall j :: 0 <= j < i ==> requests[j] == SaveRequest(questions[j])
      {
        requests := requests + [SaveRequest(questions[i])];
      }
    }

    /** The answer select of `SurveyFormPressed` as written: it edits the list, then
        saves `row`, the question of the render that showed the select, which does
        not hold the new answer yet. */
    method ChangeAnswerAsWritten(row: Question, index: int, text: string) returns (saved: Request)
      modifies this`questions
      ensures questions == ChangeQuestions(old(questions), row.id, SetAnswer(index, text))
      ensures saved == SaveRequest(row)
    {
      HandleQuestionChange(row.id, SetAnswer(index, text));
      saved := SaveRequest(row);
    }

    /** The answer select as the category select next to it does it: the saved
        question carries the new answer. */
    method ChangeAnswer(row: Question, index: int, text: string) returns (saved: Request)
      modifies this`questions
      ensures questions == ChangeQuestions(old(questions), row.id, SetAnswer(index, text))
      ensures saved == SaveRequest(ApplyEdit(row, SetAnswer(index, text)))
    {
      HandleQuestionChange(row.id, SetAnswer(index, text));
      saved := SaveRequest(ApplyEdit(row, SetAnswer(index, text)));
    }

    /** The delete button of `SurveyFormPressed`: it calls `deleteQuestion` only when
        the row's id is truthy, and reports whether a request was made. */
    method PressDelete(row: Question, response: Response<()>) returns (requested: bool)
      modifies this`questions
      ensures requested <==> Truthy(row.id)
      ensures questions == if requested && response.Ok? then RemoveQuestions(old(questions), row.id) else old(questions)
    {
      requested := Truthy(row.id);
      if requested {
        DeleteQuestion(row.id, response);
      }
    }
  }
}
