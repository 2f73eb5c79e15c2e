/** How the components fit together: a quiz's record reaching the profile,
    persistence across a reload, and one whole session from login to the
    profile page. */
module Flow {
  import opened Types
  import Profile
  import QuizView
  import Login
  import App

  /** A page reload: a new shell started from the persisted slot. It sees
      the same user that was in memory, and lands on the dashboard exactly
      when someone is logged in. */
  method Reload(a: App.AppState) returns (user: Option<User>, view: App.View)
    requires a.Valid()
    ensures user == a.user
    ensures view == App.DashboardPage <==> a.user.Some?
    ensures view == App.LoginPage <==> a.user.None?
  {
    var b := new App.AppState(a.storage);
    user, view := b.user, b.currentView;
  }

  /** Saving a score adds exactly one to the completed count and puts the
      new record at the top of the history. */
  lemma SaveScoreShowsFirst(u: User, r: ScoreRecord)
    ensures Profile.CompletedCount(u.(scores := [r] + u.scores)) == Profile.CompletedCount(u) + 1
    ensures Profile.HistoryOf([r] + u.scores).rows[0] == Profile.RowOf(r)
  {
    Profile.HistoryAfterPrepend(r, u.scores);
  }

  /** A finished quiz of 5 or 10 questions gets an encouraging message
      ("Luar biasa" or "Kerja bagus") exactly when its record is labelled
      LULUS in the profile. */
  lemma MessageAgreesWithVerdict(r: ScoreRecord)
    requires r.total == 5 || r.total == 10
    ensures QuizView.FinishMessage(QuizView.FinishPercentage(r.score, r.total)) != QuizView.KeepGoing
      <==> Profile.VerdictOf(r) == Profile.Lulus
  {
    var p := QuizView.FinishPercentage(r.score, r.total);
    var x := (r.score as real) / (r.total as real) * 100.0;
    if r.total == 5 {
      assert x == (20 * r.score) as real;
    } else {
      assert x == (10 * r.score) as real;
    }
  }

  /** For other lengths the two rules can disagree: 25 right out of 42
      rounds to 60% ("Kerja bagus") but is below 0.6 (REMIDI). */
  lemma MessageDisagreesAt42(r: ScoreRecord)
    requires r.score == 25 && r.total == 42
    ensures QuizView.FinishPercentage(r.score, r.total) == 60
    ensures QuizView.FinishMessage(QuizView.FinishPercentage(r.score, r.total)) == QuizView.GoodWork
    ensures Profile.VerdictOf(r) == Profile.Remidi
  {
  }

  /** Ana logs in, takes a level-2 practice quiz of the 5 questions it asks
      for, answers every one correctly, saves, and opens the profile: one
      completed test with an average of 100. */
  method AnaSession(qs: seq<QuizQuestion>) returns (view: App.View, completed: nat, average: Option<int>)
    requires |qs| == QuizView.RequestedCount(Latihan)
    requires forall i :: 0 <= i < |qs| ==> 0 <= qs[i].correctAnswer < |qs[i].options|
    ensures view == App.ProfilePage
    ensures completed == 1 && average == Some(100)
  {
    var form := new Login.LoginForm();
    form.SetName("Ana");
    form.SetEmail("ana@x.com");
    var u := form.HandleSubmit("ana-1");
    var app := new App.AppState(None);
    app.HandleLogin(u.value);
    app.SelectQuiz(2, Latihan);
    var quiz := new QuizView.QuizRunner(app.selectedLevel, app.quizMode, qs);
    while !quiz.isFinished
      modifies quiz
      invariant quiz.Valid() && quiz.questions == qs
      invariant quiz.level == 2 && quiz.mode == Latihan
      invariant quiz.score == |quiz.answers|
      invariant !quiz.isFinished ==> !quiz.showResult
      decreases |qs| - |quiz.answers|
    {
      var k: nat := qs[quiz.currentIndex].correctAnswer;
      quiz.SelectOption(k);
      var _ := quiz.CheckAnswer();
      quiz.HandleNext();
    }
    var record := quiz.Finish("quiz-1", 0);
    app.FinishQuiz(record);
    app.GoProfile();
    Profile.AveragePerfect(app.user.value.scores);
    view := app.currentView;
    completed := Profile.CompletedCount(app.user.value);
    average := Profile.AveragePercentage(app.user.value.scores);
  }
}
