/** The app shell: the session store (the current user, mirrored into one
    persisted slot) and the view router with its selection parameters. */
module App {
  import opened Types

  datatype View = LoginPage | DashboardPage | LessonPage | QuizPage | ProfilePage

  /** The pages the render function draws for a given state: the login page
      whenever the view is login, every other page only while a user is
      present. */
  function Rendered(view: View, user: Option<User>): (pages: set<View>)
    ensures LoginPage in pages <==> view == LoginPage
    ensures DashboardPage in pages <==> user.Some? && view == DashboardPage
    ensures LessonPage in pages <==> user.Some? && view == LessonPage
    ensures QuizPage in pages <==> user.Some? && view == QuizPage
    ensures ProfilePage in pages <==> user.Some? && view == ProfilePage
  {
    if view == LoginPage || user.Some? then {view} else {}
  }

  /** The bottom navigation bar (Beranda, Profil). */
  function NavShown(view: View, user: Option<User>): bool
  {
    user.Some? && view != LoginPage
  }

  /** In every state the app can reach, exactly the current view is drawn,
      and the bottom bar is shown on every page but login. */
  lemma OnePagePerState(view: View, user: Option<User>)
    requires user.Some? <==> view != LoginPage
    ensures Rendered(view, user) == {view}
    ensures NavShown(view, user) <==> view != LoginPage
  {
  }

  /** Without a user, a non-login view draws nothing at all. */
  lemma BlankWithoutUser(view: View)
    requires view != LoginPage
    ensures Rendered(view, None) == {}
    ensures !NavShown(view, None)
  {
  }

  class AppState {
    var user: Option<User>
    var currentView: View
    var selectedLevel: HSKLevel
    var selectedType: MaterialType
    var quizMode: QuizMode
    /** The persisted 'hsk_user' slot. */
    var storage: Option<User>

    /** The slot always mirrors the user in memory, and a user is present
        exactly when the view is not login. */
    ghost predicate Valid()
      reads this
    {
      storage == user && (user.Some? <==> currentView != LoginPage)
    }

    /** Start-up: the initial state, then the restore of a saved user. */
    constructor (saved: Option<User>)
      ensures Valid()
      ensures storage == saved && user == saved
      ensures currentView == if saved.Some? then DashboardPage else LoginPage
      ensures selectedLevel == 1 && selectedType == Reading && quizMode == Latihan
    {
      user := saved;
      currentView := if saved.Some? then DashboardPage else LoginPage;
      selectedLevel := 1;
      selectedType := Reading;
      quizMode := Latihan;
      storage := saved;
    }

    /** The login page's callback. */
    method HandleLogin(u: User)
      requires Valid() && currentView == LoginPage
      modifies this
      ensures Valid()
      ensures user == Some(u) && storage == Some(u) && currentView == DashboardPage
      ensures selectedLevel == old(selectedLevel) && selectedType == old(selectedType)
      ensures quizMode == old(quizMode)
    {
      user := Some(u);
      storage := Some(u);
      currentView := DashboardPage;
    }

    /** "Keluar" on the profile page. */
    method HandleLogout()
      requires Valid() && user.Some? && currentView == ProfilePage
      modifies this
      ensures Valid()
      ensures storage == None && user == None && currentView == LoginPage
      ensures selectedLevel == old(selectedLevel) && selectedType == old(selectedType)
      ensures quizMode == old(quizMode)
    {
      storage := None;
      user := None;
      currentView := LoginPage;
    }

    /** Prepends a record to the user's history and persists the result;
        does nothing without a user. */
    method SaveScore(r: ScoreRecord)
      requires Valid()
      modifies this
      ensures Valid()
      ensures old(user).None? ==> user == None && storage == old(storage)
      ensures old(user).Some? ==>
        && user.Some?
        && user.value.id == old(user).value.id
        && user.value.name == old(user).value.name
        && user.value.email == old(user).value.email
        && user.value.scores == [r] + old(user).value.scores
      ensures storage == user
      ensures currentView == old(currentView)
      ensures selectedLevel == old(selectedLevel) && selectedType == old(selectedType)
      ensures quizMode == old(quizMode)
    {
      if user == None {
        return;
      }
      var updated := user.value.(scores := [r] + user.value.scores);
      user := Some(updated);
      storage := Some(updated);
    }

    /** A lesson card on the dashboard. */
    method SelectLesson(level: HSKLevel, kind: MaterialType)
      requires Valid() && user.Some? && currentView == DashboardPage
      modifies this
      ensures Valid()
      ensures selectedLevel == level && selectedType == kind && currentView == LessonPage
      ensures quizMode == old(quizMode) && user == old(user) && storage == old(storage)
    {
      selectedLevel := level;
      selectedType := kind;
      currentView := LessonPage;
    }

    /** A quiz button on the dashboard. */
    method SelectQuiz(level: HSKLevel, mode: QuizMode)
      requires Valid() && user.Some? && currentView == DashboardPage
      modifies this
      ensures Valid()
      ensures selectedLevel == level && quizMode == mode && currentView == QuizPage
      ensures selectedType == old(selectedType) && user == old(user) && storage == old(storage)
    {
      selectedLevel := level;
      quizMode := mode;
      currentView := QuizPage;
    }

    /** Back from a lesson, a quiz or the profile, and Beranda on the bar. */
    method GoDashboard()
      requires Valid() && user.Some? && currentView != LoginPage
      modifies this
      ensures Valid()
      ensures currentView == DashboardPage
      ensures user == old(user) && storage == old(storage)
      ensures selectedLevel == old(selectedLevel) && selectedType == old(selectedType)
      ensures quizMode == old(quizMode)
    {
      currentView := DashboardPage;
    }

    /** The dashboard's profile link, and Profil on the bar. */
    method GoProfile()
      requires Valid() && user.Some? && currentView != LoginPage
      modifies this
      ensures Valid()
      ensures currentView == ProfilePage
      ensures user == old(user) && storage == old(storage)
      ensures selectedLevel == old(selectedLevel) && selectedType == old(selectedType)
      ensures quizMode == old(quizMode)
    {
      currentView := ProfilePage;
    }

    /** The quiz page's finish action: the record goes to SaveScore first,
        then the view returns to the dashboard. */
    method FinishQuiz(r: ScoreRecord)
      requires Valid() && user.Some? && currentView == QuizPage
      modifies this
      ensures Valid()
      ensures user.Some?
      ensures user.value == old(user).value.(scores := [r] + old(user).value.scores)
      ensures storage == user && currentView == DashboardPage
      ensures selectedLevel == old(selectedLevel) && selectedType == old(selectedType)
      ensures quizMode == old(quizMode)
    {
      SaveScore(r);
      GoDashboard();
    }
  }
}
