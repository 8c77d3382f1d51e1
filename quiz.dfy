/** The "Add New Section" form: a section name, an uploaded video and a quiz
    whose questions each hold a list of options, some marked correct. The
    handlers edit one question or one option at a time; submission is
    refused unless every question has a correct option. */
module TAddNewSection {
  import opened Common

  datatype QuizOption = QuizOption(optionText: string, isCorrect: bool)

  datatype Question = Question(questionText: string, options: seq<QuizOption>)

  /** What handleSubmit posts to `/api/v1/sections/add`. */
  datatype SectionPayload = SectionPayload(sectionName: string, videoFile: Option<string>, quiz: seq<Question>)

  function BlankOption(): QuizOption {
    QuizOption("", false)
  }

  /** A new question: empty text and four empty options, none correct. */
  function BlankQuestion(): Question {
    Question("", [BlankOption(), BlankOption(), BlankOption(), BlankOption()])
  }

  /** `quiz.every(q => q.options.some(o => o.isCorrect))`. */
  predicate HasCorrectOption(q: Question) {
    exists o :: 0 <= o < |q.options| && q.options[o].isCorrect
  }

  predicate AllHaveCorrect(quiz: seq<Question>) {
    forall i :: 0 <= i < |quiz| ==> HasCorrectOption(quiz[i])
  }

  /** The states the page can reach through its buttons: at least one
      question, and at least one option in each. */
  predicate NonEmpty(quiz: seq<Question>) {
    |quiz| >= 1 && forall i :: 0 <= i < |quiz| ==> |quiz[i].options| >= 1
  }

  // ---------------------------------------------------------------------
  // The edits, as functions of the quiz

  /** `s.filter((_, i) => i !== index)`. */
  function RemoveAt<T>(s: seq<T>, index: int): (r: seq<T>)
    ensures 0 <= index < |s| ==> |r| == |s| - 1
    ensures 0 <= index < |s| ==> forall j :: 0 <= j < index ==> r[j] == s[j]
    ensures 0 <= index < |s| ==> forall j :: index <= j < |r| ==> r[j] == s[j + 1]
    ensures !(0 <= index < |s|) ==> r == s
  {
    if 0 <= index < |s| then s[..index] + s[index + 1..] else s
  }

  /** handleQuizChange(index, "questionText", value). */
  function WithQuestionText(quiz: seq<Question>, index: nat, value: string): (r: seq<Question>)
    requires index < |quiz|
    ensures |r| == |quiz|
    ensures r[index].questionText == value && r[index].options == quiz[index].options
    ensures forall j :: 0 <= j < |r| && j != index ==> r[j] == quiz[j]
  {
    quiz[index := quiz[index].(questionText := value)]
  }

  /** Replaces the options of one question. */
  function WithOptions(quiz: seq<Question>, q: nat, options: seq<QuizOption>): (r: seq<Question>)
    requires q < |quiz|
    ensures |r| == |quiz|
    ensures r[q].questionText == quiz[q].questionText && r[q].options == options
    ensures forall j :: 0 <= j < |r| && j != q ==> r[j] == quiz[j]
  {
    quiz[q := quiz[q].(options := options)]
  }

  /** handleOptionChange(q, o, "optionText", value). */
  function WithOptionText(quiz: seq<Question>, q: nat, o: nat, value: string): (r: seq<Question>)
    requires q < |quiz| && o < |quiz[q].options|
    ensures |r| == |quiz| && |r[q].options| == |quiz[q].options|
    ensures r[q].options[o] == QuizOption(value, quiz[q].options[o].isCorrect)
    ensures forall k :: 0 <= k < |r[q].options| && k != o ==> r[q].options[k] == quiz[q].options[k]
    ensures r[q].questionText == quiz[q].questionText
    ensures forall j :: 0 <= j < |r| && j != q ==> r[j] == quiz[j]
  {
    var opts := quiz[q].options;
    WithOptions(quiz, q, opts[o := opts[o].(optionText := value)])
  }

  /** handleCorrectOptionChange(q, o). */
  function ToggleCorrect(quiz: seq<Question>, q: nat, o: nat): (r: seq<Question>)
    requires q < |quiz| && o < |quiz[q].options|
    ensures |r| == |quiz| && |r[q].options| == |quiz[q].options|
    ensures r[q].options[o] == QuizOption(quiz[q].options[o].optionText, !quiz[q].options[o].isCorrect)
    ensures forall k :: 0 <= k < |r[q].options| && k != o ==> r[q].options[k] == quiz[q].options[k]
    ensures r[q].questionText == quiz[q].questionText
    ensures forall j :: 0 <= j < |r| && j != q ==> r[j] == quiz[j]
  {
    var opts := quiz[q].options;
    WithOptions(quiz, q, opts[o := opts[o].(isCorrect := !opts[o].isCorrect)])
  }

  /** addOption(q). */
  function WithOptionAdded(quiz: seq<Question>, q: nat): (r: seq<Question>)
    requires q < |quiz|
    ensures |r| == |quiz|
    ensures r[q].options == quiz[q].options + [BlankOption()]
    ensures r[q].questionText == quiz[q].questionText
    ensures forall j :: 0 <= j < |r| && j != q ==> r[j] == quiz[j]
  {
    WithOptions(quiz, q, quiz[q].options + [BlankOption()])
  }

  /** removeOption(q, o). */
  function WithOptionRemoved(quiz: seq<Question>, q: nat, o: int): (r: seq<Question>)
    requires q < |quiz|
    ensures |r| == |quiz|
    ensures r[q].options == RemoveAt(quiz[q].options, o)
    ensures r[q].questionText == quiz[q].questionText
    ensures forall j :: 0 <= j < |r| && j != q ==> r[j] == quiz[j]
  {
    WithOptions(quiz, q, RemoveAt(quiz[q].options, o))
  }

  // ---------------------------------------------------------------------
  // What the edits promise

  /** Toggling the same option twice gives the quiz back. */
  lemma ToggleTwice(quiz: seq<Question>, q: nat, o: nat)
    requires q < |quiz| && o < |quiz[q].options|
    ensures ToggleCorrect(ToggleCorrect(quiz, q, o), q, o) == quiz
  {
    var once := ToggleCorrect(quiz, q, o);
    var twice := ToggleCorrect(once, q, o);
    assert twice[q].options == quiz[q].options;
    assert twice[q] == quiz[q];
  }

  /** The initial quiz, and any quiz after addQuestion, fails the submit
      check: the new question has no correct option. */
  lemma BlankQuestionInvalid(quiz: seq<Question>)
    ensures !HasCorrectOption(BlankQuestion())
    ensures !AllHaveCorrect(quiz + [BlankQuestion()])
  {
    assert (quiz + [BlankQuestion()])[|quiz|] == BlankQuestion();
  }

  /** Removing a question keeps a valid quiz valid. */
  lemma RemoveQuestionKeepsValid(quiz: seq<Question>, index: int)
    requires AllHaveCorrect(quiz)
    ensures AllHaveCorrect(RemoveAt(quiz, index))
  {
    var r := RemoveAt(quiz, index);
    forall j | 0 <= j < |r| ensures HasCorrectOption(r[j]) {
      if !(0 <= index < |quiz|) || j < index {
        assert r[j] == quiz[j];
      } else {
        assert r[j] == quiz[j + 1];
      }
    }
  }

  /** Marking an option correct makes its question pass the check, and a
      valid quiz stays valid. */
  lemma ToggleOnValid(quiz: seq<Question>, q: nat, o: nat)
    requires q < |quiz| && o < |quiz[q].options|
    requires !quiz[q].options[o].isCorrect
    ensures HasCorrectOption(ToggleCorrect(quiz, q, o)[q])
    ensures AllHaveCorrect(quiz) ==> AllHaveCorrect(ToggleCorrect(quiz, q, o))
  {
    var r := ToggleCorrect(quiz, q, o);
    assert r[q].options[o].isCorrect;
  }

  /** Unmarking the only correct option of a question makes the quiz fail
      the check. */
  lemma ToggleOffOnlyCorrect(quiz: seq<Question>, q: nat, o: nat)
    requires q < |quiz| && o < |quiz[q].options|
    requires quiz[q].options[o].isCorrect
    requires forall k :: 0 <= k < |quiz[q].options| && k != o ==> !quiz[q].options[k].isCorrect
    ensures !AllHaveCorrect(ToggleCorrect(quiz, q, o))
  {
    var r := ToggleCorrect(quiz, q, o);
    assert !HasCorrectOption(r[q]);
  }

  /** The remove buttons are rendered only while there is more than one
      question (resp. option), so the edits keep the quiz non-empty. */
  lemma EditsKeepNonEmpty(quiz: seq<Question>, q: nat, o: nat, value: string)
    requires NonEmpty(quiz)
    requires q < |quiz|
    ensures NonEmpty(quiz + [BlankQuestion()])
    ensures NonEmpty(WithQuestionText(quiz, q, value))
    ensures NonEmpty(WithOptionAdded(quiz, q))
    ensures |quiz| > 1 ==> NonEmpty(RemoveAt(quiz, q))
    ensures |quiz[q].options| > 1 ==> NonEmpty(WithOptionRemoved(quiz, q, o))
    ensures o < |quiz[q].options| ==> NonEmpty(WithOptionText(quiz, q, o, value)) && NonEmpty(ToggleCorrect(quiz, q, o))
  {
    var r := RemoveAt(quiz, q);
    forall j | 0 <= j < |r| ensures |r[j].options| >= 1 {
      if |quiz| <= 1 || j < q {
        assert r[j] == quiz[j];
      } else {
        assert r[j] == quiz[j + 1];
      }
    }
    assert (quiz + [BlankQuestion()])[|quiz|] == BlankQuestion();
  }

  // ---------------------------------------------------------------------
  // The page

  class SectionForm {
    var sectionName: string
    var videoFile: Option<string>
    var quiz: seq<Question>
    var message: string
    var loading: bool

    constructor()
      ensures sectionName == "" && videoFile == None && message == "" && !loading
      ensures quiz == [BlankQuestion()]
      ensures NonEmpty(quiz) && !AllHaveCorrect(quiz)
    {
      sectionName := "";
      videoFile := None;
      quiz := [BlankQuestion()];
      message := "";
      loading := false;
      BlankQuestionInvalid([]);
    }

    /** The section-name input. */
    method SetSectionName(value: string)
      modifies this
      ensures sectionName == value
      ensures quiz == old(quiz) && videoFile == old(videoFile)
      ensures message == old(message) && loading == old(loading)
    {
      sectionName := value;
    }

    method HandleQuizChange(index: nat, value: string)
      requires index < |quiz|
      modifies this
      ensures quiz == WithQuestionText(old(quiz), index, value)
      ensures sectionName == old(sectionName) && videoFile == old(videoFile)
      ensures message == old(message) && loading == old(loading)
    {
      quiz := WithQuestionText(quiz, index, value);
    }

    method HandleOptionChange(quizIndex: nat, optionIndex: nat, value: string)
      requires quizIndex < |quiz| && optionIndex < |quiz[quizIndex].options|
      modifies this
      ensures quiz == WithOptionText(old(quiz), quizIndex, optionIndex, value)
      ensures sectionName == old(sectionName) && videoFile == old(videoFile)
      ensures message == old(message) && loading == old(loading)
    {
      quiz := WithOptionText(quiz, quizIndex, optionIndex, value);
    }

    method HandleCorrectOptionChange(quizIndex: nat, optionIndex: nat)
      requires quizIndex < |quiz| && optionIndex < |quiz[quizIndex].options|
      modifies this
      ensures quiz == ToggleCorrect(old(quiz), quizIndex, optionIndex)
      ensures sectionName == old(sectionName) && videoFile == old(videoFile)
      ensures message == old(message) && loading == old(loading)
    {
      quiz := ToggleCorrect(quiz, quizIndex, optionIndex);
    }

    method AddQuestion()
      modifies this
      ensures quiz == old(quiz) + [BlankQuestion()]
      ensures sectionName == old(sectionName) && videoFile == old(videoFile)
      ensures message == old(message) && loading == old(loading)
    {
      quiz := quiz + [BlankQuestion()];
    }

    method RemoveQuestion(index: int)
      modifies this
      ensures quiz == RemoveAt(old(quiz), index)
      ensures sectionName == old(sectionName) && videoFile == old(videoFile)
      ensures message == old(message) && loading == old(loading)
    {
      quiz := RemoveAt(quiz, index);
    }

    method AddOption(quizIndex: nat)
      requires quizIndex < |quiz|
      modifies this
      ensures quiz == WithOptionAdded(old(quiz), quizIndex)
      ensures sectionName == old(sectionName) && videoFile == old(videoFile)
      ensures message == old(message) && loading == old(loading)
    {
      quiz := WithOptionAdded(quiz, quizIndex);
    }

    method RemoveOption(quizIndex: nat, optionIndex: int)
      requires quizIndex < |quiz|
      modifies this
      ensures quiz == WithOptionRemoved(old(quiz), quizIndex, optionIndex)
      ensures sectionName == old(sectionName) && videoFile == old(videoFile)
      ensures message == old(message) && loading == old(loading)
    {
      quiz := WithOptionRemoved(quiz, quizIndex, optionIndex);
    }

    /** handleVideoUpload: nothing happens without a file; otherwise the
        upload's URL is kept on success and a message reports the outcome. */
    method HandleVideoUpload(fileChosen: bool, upload: Response<string>)
      modifies this
      ensures !fileChosen ==> videoFile == old(videoFile) && message == old(message) && loading == old(loading)
      ensures fileChosen && upload.Ok? ==> videoFile == Some(upload.data) && message == "Video uploaded successfully!"
      ensures fileChosen && upload.Failed? ==> videoFile == old(videoFile) && message == "Failed to upload video. Please try again."
      ensures fileChosen ==> !loading
      ensures quiz == old(quiz) && sectionName == old(sectionName)
    {
      if fileChosen {
        loading := true;
        message := "";
        match upload {
          case Ok(url) =>
            videoFile := Some(url);
            message := "Video uploaded successfully!";
          case Failed(_) =>
            message := "Failed to upload video. Please try again.";
        }
        loading := false;
      }
    }

    /** handleSubmit: a quiz with a question lacking a correct option is
        refused before any request; otherwise the form is posted and the
        message reports the server's answer. */
    method HandleSubmit(response: Response<string>) returns (sent: Option<SectionPayload>)
      modifies this
      ensures sent.None? <==> !AllHaveCorrect(quiz)
      ensures sent.Some? ==> sent.value == SectionPayload(sectionName, videoFile, quiz)
      ensures !AllHaveCorrect(quiz) ==> message == "Each question must have at least one correct option."
      ensures AllHaveCorrect(quiz) && response.Ok? ==> message == response.data
      ensures AllHaveCorrect(quiz) && response.Failed? ==> message == OrElse(response.serverMessage, "An error occurred.")
      ensures !loading
      ensures quiz == old(quiz) && sectionName == old(sectionName) && videoFile == old(videoFile)
    {
      loading := true;
      message := "";
      var isValid := true;
      var i := 0;
      while i < |quiz|
        invariant 0 <= i <= |quiz|
        invariant isValid <==> forall j :: 0 <= j < i ==> HasCorrectOption(quiz[j])
      {
        isValid := isValid && HasCorrectOption(quiz[i]);
        i := i + 1;
      }
      if !isValid {
        message := "Each question must have at least one correct option.";
        loading := false;
        return None;
      }
      sent := Some(SectionPayload(sectionName, videoFile, quiz));
      match response {
        case Ok(text) => message := text;
        case Failed(serverMessage) => message := OrElse(serverMessage, "An error occurred.");
      }
      loading := false;
    }
  }
}
