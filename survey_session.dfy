/** Filling in an evaluation: the employee chooses the self evaluation or one of the
    colleagues assigned to them, answers every displayed question and submits. */
module SurveySession {

  import opened Remote
  import Collections

  datatype Mode = SelfEvaluation | OthersEvaluation

  datatype Employee = Employee(
    id: int, employeeNumber: string, personName: string, kind: string, organizationName: string,
    selfYn: bool, othersTester: bool, completedSelf: bool, completedOthers: bool)

  /** A colleague the employee evaluates, identified by the `tested` employee number. */
  datatype TestedEmployee = TestedEmployee(
    tested: string, tester: string, personName: string, organizationName: string, jobName: string,
    isCompleted: bool)

  datatype SurveyQuestion = SurveyQuestion(id: nat, category: string, content: string)

  /** One submitted answer. `testedNumber` and `textAnswer` are left out of the JSON
      body when they are absent. */
  datatype ResponseEntry = ResponseEntry(questionId: nat, selectedAnswer: int, testedNumber: Option<string>, textAnswer: Option<string>)

  datatype Submission = Submission(responses: seq<ResponseEntry>, evaluationType: Option<Mode>)

  /** The completion flag sent for the evaluated colleague after an others evaluation. */
  datatype StatusUpdate = StatusUpdate(testedNumber: string, isCompleted: bool)

  const UnansweredError: string := "아직 선택하지 않은 문항이 있습니다."
  const SubmittedMessage: string := "설문이 성공적으로 제출되었습니다."

  /** `responses[q.id]` is truthy: recorded and not 0. */
  predicate Answered(responses: map<nat, int>, q: SurveyQuestion)
  {
    q.id in responses && responses[q.id] != 0
  }

  /** The ids of the displayed questions that block submission. */
  function Unanswered(questions: seq<SurveyQuestion>, responses: map<nat, int>): (ids: set<nat>)
    ensures forall id :: id in ids <==> exists q :: q in questions && q.id == id && !Answered(responses, q)
  {
    set q | q in questions && !Answered(responses, q) :: q.id
  }

  /** `!questions.some(q => !responses[q.id])`: the check `handleSubmit` makes first. */
  predicate AllAnswered(questions: seq<SurveyQuestion>, responses: map<nat, int>)
  {
    forall q :: q in questions ==> Answered(responses, q)
  }

  lemma AllAnsweredIffNoneBlocked(questions: seq<SurveyQuestion>, responses: map<nat, int>)
    ensures AllAnswered(questions, responses) <==> Unanswered(questions, responses) == {}
  {
    if !AllAnswered(questions, responses) {
      var q :| q in questions && !Answered(responses, q);
      assert q.id in Unanswered(questions, responses);
    }
  }

  /** Answering a question with a non-zero value unblocks exactly that question and
      blocks no other. */
  lemma AnswerUnblocks(questions: seq<SurveyQuestion>, responses: map<nat, int>, id: nat, value: int)
    requires value != 0
    ensures Unanswered(questions, responses[id := value]) == Unanswered(questions, responses) - {id}
  {
    var before := Unanswered(questions, responses);
    var after := Unanswered(questions, responses[id := value]);
    forall x | x in after ensures x in before - {id} {
      var q :| q in questions && q.id == x && !Answered(responses[id := value], q);
      assert !Answered(responses, q);
    }
    forall x | x in before - {id} ensures x in after {
      var q :| q in questions && q.id == x && !Answered(responses, q);
      assert !Answered(responses[id := value], q);
    }
  }

  /** Clearing an answer to 0 blocks that question again if it is displayed. A radio
      value that does not parse gives `NaN`, which is falsy in the same way; the
      model has no `NaN` answer, and 0 stands for both. */
  lemma ZeroBlocks(questions: seq<SurveyQuestion>, responses: map<nat, int>, q: SurveyQuestion)
    requires q in questions
    ensures q.id in Unanswered(questions, responses[q.id := 0])
  {
  }

  /** The body `handleSubmit` posts: `Object.entries(responses)` mapped to entries
      (integer keys come in ascending order), and the current mode. */
  function BuildSubmission(responses: map<nat, int>, mode: Option<Mode>, currentTested: Option<TestedEmployee>, textAnswer: string): (s: Submission)
    ensures s.evaluationType == mode
  {
    var keys := Collections.SortedNats(responses.Keys);
    var testedNumber := if currentTested.Some? then Some(currentTested.value.tested) else None;
    var text := if mode == Some(OthersEvaluation) then Some(textAnswer) else None;
    Submission(Entries(keys, responses, testedNumber, text), mode)
  }

  /** The submission has one entry per recorded response, in ascending question-id
      order, each with the recorded answer; every entry carries the evaluated
      colleague's number and, only in an others evaluation, the free-text answer. */
  lemma SubmissionContents(responses: map<nat, int>, mode: Option<Mode>, currentTested: Option<TestedEmployee>, textAnswer: string)
    ensures var s := BuildSubmission(responses, mode, currentTested, textAnswer);
      && |s.responses| == |responses|
      && (forall k :: k in responses <==> k in QuestionIds(s.responses))
      && (forall i, j :: 0 <= i < j < |s.responses| ==> s.responses[i].questionId < s.responses[j].questionId)
      && (forall i :: 0 <= i < |s.responses| ==>
            s.responses[i].questionId in responses && s.responses[i].selectedAnswer == responses[s.responses[i].questionId])
      && (forall i :: 0 <= i < |s.responses| ==>
            s.responses[i].testedNumber == (if currentTested.Some? then Some(currentTested.value.tested) else None))
      && (forall i :: 0 <= i < |s.responses| ==>
            s.responses[i].textAnswer == (if mode == Some(OthersEvaluation) then Some(textAnswer) else None))
  {
    var keys := Collections.SortedNats(responses.Keys);
    var testedNumber := if currentTested.Some? then Some(currentTested.value.tested) else None;
    var text := if mode == Some(OthersEvaluation) then Some(textAnswer) else None;
    EntriesInKeyOrder(keys, responses, testedNumber, text);
  }

  /** Entries built over the sorted keys of `responses` cover every response once,
      in ascending id order. */
  lemma EntriesInKeyOrder(keys: seq<nat>, responses: map<nat, int>, testedNumber: Option<string>, text: Option<string>)
    requires |keys| == |responses|
    requires forall k :: k in keys <==> k in responses
    requires Collections.StrictlyIncreasing(keys)
    ensures var entries := Entries(keys, responses, testedNumber, text);
      && |entries| == |responses|
      && (forall k :: k in responses <==> k in QuestionIds(entries))
      && (forall i, j :: 0 <= i < j < |entries| ==> entries[i].questionId < entries[j].questionId)
      && (forall i :: 0 <= i < |entries| ==>
            entries[i].questionId in responses && entries[i].selectedAnswer == responses[entries[i].questionId]
            && entries[i].testedNumber == testedNumber && entries[i].textAnswer == text)
  {
    var entries := Entries(keys, responses, testedNumber, text);
    assert QuestionIds(entries) == keys;
  }

  /** `Object.entries(responses).map(...)` over the given key order. */
  function Entries(keys: seq<nat>, responses: map<nat, int>, testedNumber: Option<string>, text: Option<string>): (entries: seq<ResponseEntry>)
    requires forall k :: k in keys ==> k in responses
    ensures |entries| == |keys|
    ensures forall i :: 0 <= i < |keys| ==> entries[i] == ResponseEntry(keys[i], responses[keys[i]], testedNumber, text)
  {
    seq(|keys|, i requires 0 <= i < |keys| => ResponseEntry(keys[i], responses[keys[i]], testedNumber, text))
  }

  /** The question ids of a submission's entries, in entry order. */
  function QuestionIds(entries: seq<ResponseEntry>): (ids: seq<nat>)
    ensures |ids| == |entries| && forall i :: 0 <= i < |entries| ==> ids[i] == entries[i].questionId
  {
    seq(|entries|, i requires 0 <= i < |entries| => entries[i].questionId)
  }

  /** "All evaluations are done": the self evaluation is completed and, for an
      others-tester, there is at least one assigned colleague and all of them are
      completed. */
  predicate AllDone(employee: Option<Employee>, tested: seq<TestedEmployee>)
  {
    employee.Some? && employee.value.completedSelf &&
    (!employee.value.othersTester || (|tested| > 0 && forall t :: t in tested ==> t.isCompleted))
  }

  /** The start button of the self evaluation is offered. */
  predicate OffersSelf(employee: Option<Employee>)
  {
    employee.Some? && employee.value.selfYn && !employee.value.completedSelf
  }

  /** The start button for colleague `t` is offered. */
  predicate OffersOthers(employee: Option<Employee>, tested: seq<TestedEmployee>, t: TestedEmployee)
  {
    employee.Some? && employee.value.othersTester && |tested| > 0 && t in tested && !t.isCompleted
  }

  /** When everything is done no evaluation can be started. */
  lemma AllDoneOffersNothing(employee: Option<Employee>, tested: seq<TestedEmployee>)
    requires AllDone(employee, tested)
    ensures !OffersSelf(employee)
    ensures forall t :: !OffersOthers(employee, tested, t)
  {
  }

  /** The converse fails: an employee who takes no self evaluation is offered
      nothing and is never told that all evaluations are done. */
  lemma NothingOfferedNotDone()
    ensures var e := Some(Employee(1, "2018", "", "", "", false, false, false, false));
      !OffersSelf(e) && (forall t :: !OffersOthers(e, [], t)) && !AllDone(e, [])
  {
  }

  class SurveyState {
    var loading: bool
    var employee: Option<Employee>
    var testedEmployees: seq<TestedEmployee>
    var questions: seq<SurveyQuestion>
    var responses: map<nat, int>
    var textAnswer: string
    var currentEvaluation: Option<Mode>
    var currentTested: Option<TestedEmployee>
    var message: string
    var error: string

    constructor ()
      ensures loading && employee == None && testedEmployees == [] && questions == []
      ensures responses == map[] && textAnswer == "" && currentEvaluation == None && currentTested == None
      ensures message == "" && error == ""
    {
      loading := true;
      employee := None;
      testedEmployees := [];
      questions := [];
      responses := map[];
      textAnswer := "";
      currentEvaluation := None;
      currentTested := None;
      message := "";
      error := "";
    }

    /** `fetchEmployeeData`: store the employee; only for an others-tester, load the
        assigned colleagues; any failure is reported in `error`; loading ends either way. */
    method LoadEmployee(reply: Response<Employee>, testedReply: Response<seq<TestedEmployee>>) returns (testedRequested: bool)
      modifies this`employee, this`testedEmployees, this`error, this`loading
      ensures testedRequested <==> reply.Ok? && reply.value.othersTester
      ensures employee == if reply.Ok? then Some(reply.value) else old(employee)
      ensures testedEmployees == if testedRequested && testedReply.Ok? then testedReply.value else old(testedEmployees)
      ensures error == if reply.Failed? then reply.message
                       else if testedRequested && testedReply.Failed? then testedReply.message
                       else old(error)
      ensures !loading
    {
      testedRequested := false;
      if reply.Ok? {
        employee := Some(reply.value);
        if reply.value.othersTester {
          testedRequested := true;
          if testedReply.Ok? {
            testedEmployees := testedReply.value;
          } else {
            error := testedReply.message;
          }
        }
      } else {
        error := reply.message;
      }
      loading := false;
    }

    /** `fetchQuestions(type, tested)`: on success start that evaluation with a fresh
        set of responses. */
    method FetchQuestions(mode: Mode, tested: Option<TestedEmployee>, reply: Response<seq<SurveyQuestion>>)
      modifies this`questions, this`currentEvaluation, this`currentTested, this`responses, this`error
      ensures reply.Ok? ==> (questions == reply.value && currentEvaluation == Some(mode)
        && currentTested == tested && responses == map[] && error == old(error))
      ensures reply.Failed? ==> (questions == old(questions) && currentEvaluation == old(currentEvaluation)
        && currentTested == old(currentTested) && responses == old(responses) && error == reply.message)
    {
      if reply.Ok? {
        questions := reply.value;
        currentEvaluation := Some(mode);
        currentTested := tested;
        responses := map[];
      } else {
        error := reply.message;
      }
    }

    /** `handleResponseChange`: record the chosen answer of one question. */
    method HandleResponseChange(questionId: nat, value: int)
      modifies this`responses
      ensures responses == old(responses)[questionId := value]
      ensures forall k :: k in old(responses) && k != questionId ==> k in responses && responses[k] == old(responses)[k]
    {
      responses := responses[questionId := value];
    }

    method SetTextAnswer(text: string)
      modifies this`textAnswer
      ensures textAnswer == text
    {
      textAnswer := text;
    }

    /** `resetSurvey`: back to the choice of evaluation. */
    method ResetSurvey()
      modifies this`currentEvaluation, this`currentTested, this`responses, this`questions, this`textAnswer
      ensures currentEvaluation == None && currentTested == None
      ensures responses == map[] && questions == [] && textAnswer == ""
    {
      currentEvaluation := None;
      currentTested := None;
      responses := map[];
      questions := [];
      textAnswer := "";
    }

    /** Every field except `error` as it was before the call. */
    twostate predicate Unchanged()
      reads this
    {
      loading == old(loading) && employee == old(employee) && testedEmployees == old(testedEmployees)
      && questions == old(questions) && responses == old(responses) && textAnswer == old(textAnswer)
      && currentEvaluation == old(currentEvaluation) && currentTested == old(currentTested)
      && message == old(message)
    }

    /** `handleSubmit`. A displayed question without a truthy answer stops it before
        any request. Otherwise the submission is posted; on failure only `error`
        changes. On success the evaluated colleague of an others evaluation is
        marked completed (a failure of that update is only logged, so its outcome
        changes nothing here), the employee data are loaded again and the survey
        is reset. */
    method Submit(reply: Response<()>, employeeReply: Response<Employee>, testedReply: Response<seq<TestedEmployee>>)
      returns (sent: Option<Submission>, statusUpdate: Option<StatusUpdate>)
      modifies this
      ensures sent.Some? <==> AllAnswered(old(questions), old(responses))
      ensures sent.Some? ==> sent.value == BuildSubmission(old(responses), old(currentEvaluation), old(currentTested), old(textAnswer))
      ensures statusUpdate.Some? <==>
        sent.Some? && reply.Ok? && old(currentEvaluation) == Some(OthersEvaluation) && old(currentTested).Some?
      ensures statusUpdate.Some? ==> statusUpdate.value == StatusUpdate(old(currentTested).value.tested, true)
      ensures sent.None? ==> (error == UnansweredError && Unchanged())
      ensures sent.Some? && reply.Failed? ==> (error == reply.message && Unchanged())
      ensures sent.Some? && reply.Ok? ==> (message == SubmittedMessage && !loading
        && currentEvaluation == None && currentTested == None && responses == map[] && questions == [] && textAnswer == ""
        && employee == (if employeeReply.Ok? then Some(employeeReply.value) else old(employee))
        && testedEmployees == (if employeeReply.Ok? && employeeReply.value.othersTester && testedReply.Ok?
                               then testedReply.value else old(testedEmployees))
        && error == (if employeeReply.Failed? then employeeReply.message
                     else if employeeReply.value.othersTester && testedReply.Failed? then testedReply.message
                     else old(error)))
    {
      statusUpdate := None;
      if !AllAnswered(questions, responses) {
        sent := None;
        error := UnansweredError;
        return;
      }
      sent := Some(BuildSubmission(responses, currentEvaluation, currentTested, textAnswer));
      if reply.Failed? {
        error := reply.message;
        return;
      }
      if currentEvaluation == Some(OthersEvaluation) && currentTested.Some? {
        statusUpdate := Some(StatusUpdate(currentTested.value.tested, true));
      }
      Complete(employeeReply, testedReply);
    }

    /** What a successful submission does after the status update: report success,
        load the employee data again and return to the choice of evaluation. */
    method Complete(employeeReply: Response<Employee>, testedReply: Response<seq<TestedEmployee>>)
      modifies this
      ensures message == SubmittedMessage && !loading
      ensures currentEvaluation == None && currentTested == None && responses == map[] && questions == [] && textAnswer == ""
      ensures employee == (if employeeReply.Ok? then Some(employeeReply.value) else old(employee))
      ensures testedEmployees == (if employeeReply.Ok? && employeeReply.value.othersTester && testedReply.Ok?
                                  then testedReply.value else old(testedEmployees))
      ensures error == (if employeeReply.Failed? then employeeReply.message
                        else if employeeReply.value.othersTester && testedReply.Failed? then testedReply.message
                        else old(error))
    {
      message := SubmittedMessage;
      var _ := LoadEmployee(employeeReply, testedReply);
      ResetSurvey();
    }
  }

  /** A self evaluation of two questions: answering one of them is not enough;
      after answering both the submission carries both answers in question order,
      no colleague and no free text, and the survey returns to the choice. */
  method SelfEvaluationWalkThrough() returns (firstTry: Option<Submission>, secondTry: Option<Submission>, backToChoice: bool)
    ensures firstTry == None
    ensures secondTry == Some(Submission([ResponseEntry(3, 2, None, None), ResponseEntry(7, 5, None, None)], Some(SelfEvaluation)))
    ensures backToChoice
  {
    var state := new SurveyState();
    var questions := [SurveyQuestion(7, "", ""), SurveyQuestion(3, "", "")];
    state.FetchQuestions(SelfEvaluation, None, Ok(questions));
    state.HandleResponseChange(7, 5);
    TwoQuestionsAnswered(questions);
    var update;
    firstTry, update := state.Submit(Ok(()), Failed(""), Failed(""));
    state.HandleResponseChange(3, 2);
    secondTry, update := state.Submit(Ok(()), Failed(""), Failed(""));
    SubmissionOfTwo(secondTry.value, 3, 7, 2, 5);
    backToChoice := state.currentEvaluation == None && state.questions == [];
  }

  lemma TwoQuestionsAnswered(questions: seq<SurveyQuestion>)
    requires questions == [SurveyQuestion(7, "", ""), SurveyQuestion(3, "", "")]
    ensures !AllAnswered(questions, map[][7 := 5])
    ensures AllAnswered(questions, map[][7 := 5][3 := 2])
  {
    assert !Answered(map[][7 := 5], questions[1]);
  }

  /** The submission of two recorded answers lists the smaller question id first. */
  lemma SubmissionOfTwo(s: Submission, first: nat, second: nat, x: int, y: int)
    requires first < second
    requires s == BuildSubmission(map[][second := y][first := x], Some(SelfEvaluation), None, "")
    ensures s == Submission([ResponseEntry(first, x, None, None), ResponseEntry(second, y, None, None)], Some(SelfEvaluation))
  {
    var responses := map[][second := y][first := x];
    SubmissionContents(responses, Some(SelfEvaluation), None, "");
    TwoEntries(s.responses, responses, first, second, x, y);
  }

  lemma TwoEntries(entries: seq<ResponseEntry>, responses: map<nat, int>, first: nat, second: nat, x: int, y: int)
    requires first < second && responses == map[][second := y][first := x]
    requires |entries| == |responses|
    requires forall k :: k in responses <==> k in QuestionIds(entries)
    requires forall i, j :: 0 <= i < j < |entries| ==> entries[i].questionId < entries[j].questionId
    requires forall i :: 0 <= i < |entries| ==>
      entries[i].questionId in responses && entries[i].selectedAnswer == responses[entries[i].questionId]
    requires forall i :: 0 <= i < |entries| ==> entries[i].testedNumber == None && entries[i].textAnswer == None
    ensures entries == [ResponseEntry(first, x, None, None), ResponseEntry(second, y, None, None)]
  {
    assert responses.Keys == {first, second};
    assert |entries| == 2 by {
      assert |responses| == |responses.Keys| == 2;
    }
    var ids := QuestionIds(entries);
    assert first in ids && second in ids;
    assert ids[0] == first && ids[1] == second by {
      assert ids[0] < ids[1];
      assert ids[0] in responses && ids[1] in responses;
    }
    assert entries == [entries[0], entries[1]];
  }
}
