/** The feedback panel: a small form state machine over the current prediction that, on
    submit, prepends one feedback entry to the shared feedback list. */
module ModelFeedback {
  import opened Wrappers
  import opened HerbRecognition
  import opened ModelAtoms
  import opened Store

  /** The form's local state; `isCorrect` is `None` until one of the two verdict buttons is pressed. */
  datatype FeedbackForm = FeedbackForm(isCorrect: Option<bool>, actualHerbName: string, rating: int, comments: string)

  const EmptyForm: FeedbackForm := FeedbackForm(None, "", 0, "")

  /** How many feedback entries the recent-feedback list shows. */
  const RecentCount: nat := 5

  /** The feedback entry built from a completed form and the top prediction. An empty
      corrected name falls back to the predicted name. */
  function BuildFeedback(form: FeedbackForm, top: ModelPrediction, id: string, timestamp: int, predictionId: string)
    : (f: UserFeedback)
    requires form.isCorrect.Some?
    ensures f.id == id && f.timestamp == timestamp && f.predictionId == predictionId
    ensures f.predictedHerbName == top.herbName && f.confidence == top.confidence
    ensures f.isCorrect == form.isCorrect.value
    ensures f.userRating == form.rating && f.comments == form.comments
    ensures form.actualHerbName != [] ==> f.actualHerbName == form.actualHerbName
    ensures form.actualHerbName == [] ==> f.actualHerbName == top.herbName
  {
    UserFeedback(id, timestamp, predictionId,
                 if form.actualHerbName != [] then form.actualHerbName else top.herbName,
                 top.herbName, form.isCorrect.value, top.confidence, form.rating, form.comments)
  }

  /** `userFeedback.slice(0, 5)`. */
  function RecentFeedback(feedbacks: seq<UserFeedback>): (r: seq<UserFeedback>)
    ensures |r| == if |feedbacks| < RecentCount then |feedbacks| else RecentCount
    ensures r <= feedbacks
  {
    if |feedbacks| < RecentCount then feedbacks else feedbacks[..RecentCount]
  }

  /** After a submission the new entry heads the recent list, followed by what was shown
      before minus, once the list is full, its oldest entry. */
  lemma RecentAfterSubmit(f: UserFeedback, feedbacks: seq<UserFeedback>)
    ensures RecentFeedback([f] + feedbacks)[0] == f
    ensures RecentFeedback([f] + feedbacks)[1..]
         == if |feedbacks| < RecentCount then RecentFeedback(feedbacks)
            else RecentFeedback(feedbacks)[..RecentCount - 1]
  {
    var r := RecentFeedback([f] + feedbacks);
    assert r[0] == ([f] + feedbacks)[0];
    if |feedbacks| < RecentCount {
      assert r == [f] + feedbacks;
    } else {
      assert r[1..] == feedbacks[..RecentCount - 1];
    }
  }

  /** What a press of the submit handler did. */
  datatype SubmitOutcome =
    | Incomplete
    | MissingTopPrediction
    | Submitted(feedback: UserFeedback)

  /** The React state of one feedback panel. Every rating it ever holds is the reset value 0
      or one of the five stars. */
  class FeedbackPanel {
    var form: FeedbackForm
    var showForm: bool

    ghost predicate Valid()
      reads this
    {
      0 <= form.rating <= 5
    }

    constructor ()
      ensures Valid()
      ensures form == EmptyForm && !showForm
    {
      form := EmptyForm;
      showForm := false;
    }

    /** The submit button is disabled while no star has been picked. */
    function SubmitEnabled(): (enabled: bool)
      reads this
      ensures enabled <==> form.rating != 0
    {
      form.rating != 0
    }

    /** The thumbs-up button: records the verdict "correct" and opens the form. */
    method ChooseCorrect()
      requires Valid()
      modifies this
      ensures Valid()
      ensures form == old(form).(isCorrect := Some(true)) && showForm
    {
      form := form.(isCorrect := Some(true));
      showForm := true;
    }

    /** The thumbs-down button: records the verdict "wrong" and opens the form. */
    method ChooseWrong()
      requires Valid()
      modifies this
      ensures Valid()
      ensures form == old(form).(isCorrect := Some(false)) && showForm
    {
      form := form.(isCorrect := Some(false));
      showForm := true;
    }

    /** `handleRatingClick`, reached only from the five star buttons. */
    method HandleRatingClick(star: int)
      requires Valid()
      requires 1 <= star <= 5
      modifies this
      ensures Valid()
      ensures form == old(form).(rating := star) && showForm == old(showForm)
    {
      form := form.(rating := star);
    }

    /** Typing in the corrected-name field. */
    method EditActualHerbName(text: string)
      requires Valid()
      modifies this
      ensures Valid()
      ensures form == old(form).(actualHerbName := text) && showForm == old(showForm)
    {
      form := form.(actualHerbName := text);
    }

    /** Typing in the comments field. */
    method EditComments(text: string)
      requires Valid()
      modifies this
      ensures Valid()
      ensures form == old(form).(comments := text) && showForm == old(showForm)
    {
      form := form.(comments := text);
    }

    /** The cancel button hides the form and keeps what was entered. */
    method Cancel()
      requires Valid()
      modifies this
      ensures Valid()
      ensures form == old(form) && !showForm
    {
      showForm := false;
    }

    /** `handleSubmitFeedback`. `id`, `timestamp` and `predictionId` are the three
        `Date.now()` readings. Without a current prediction or a verdict nothing changes;
        a prediction with no entries makes the `predictions[0]` accesses throw before any
        state is written; otherwise the entry is prepended and the form is reset and hidden. */
    method HandleSubmitFeedback(store: AppState, id: string, timestamp: int, predictionId: string)
      returns (outcome: SubmitOutcome)
      requires Valid()
      modifies this, store`userFeedback
      ensures Valid()
      ensures outcome.Incomplete? <==> store.currentPrediction.None? || old(form).isCorrect.None?
      ensures outcome.MissingTopPrediction? <==>
        store.currentPrediction.Some? && old(form).isCorrect.Some?
        && |store.currentPrediction.value.predictions| == 0
      ensures outcome.Submitted? ==>
        && |store.currentPrediction.value.predictions| > 0
        && outcome.feedback == BuildFeedback(old(form), store.currentPrediction.value.predictions[0],
                                             id, timestamp, predictionId)
        && store.userFeedback == [outcome.feedback] + old(store.userFeedback)
        && form == EmptyForm && !showForm
      ensures outcome.Submitted? && old(SubmitEnabled()) ==> 1 <= outcome.feedback.userRating <= 5
      ensures !outcome.Submitted? ==>
        store.userFeedback == old(store.userFeedback) && form == old(form) && showForm == old(showForm)
    {
      if store.currentPrediction.None? || form.isCorrect.None? {
        return Incomplete;
      }
      var prediction := store.currentPrediction.value;
      if |prediction.predictions| == 0 {
        return MissingTopPrediction;
      }
      var feedback := BuildFeedback(form, prediction.predictions[0], id, timestamp, predictionId);
      store.userFeedback := [feedback] + store.userFeedback;
      form := EmptyForm;
      showForm := false;
      return Submitted(feedback);
    }
  }
}
