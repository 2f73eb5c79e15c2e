/** The login screen: two text fields and the submit guard that builds a
    fresh user. */
module Login {
  import opened Types

  /** The submit handler's own guard: it creates a user exactly when neither
      field is the empty string. The handler itself neither trims nor checks
      the email's format; the new user has the entered name and email, the
      given id and no scores. */
  function Submit(name: string, email: string, id: string): (u: Option<User>)
    ensures u.Some? <==> name != "" && email != ""
    ensures u.Some? ==> u.value.id == id && u.value.name == name && u.value.email == email
    ensures u.Some? ==> u.value.scores == []
  {
    if name != "" && email != "" then Some(User(id, name, email, [])) else None
  }

  /** The handler does not trim: with any non-empty email, a name of a
      single space still creates a user. */
  lemma WhitespaceAccepted(email: string, id: string)
    requires email != ""
    ensures Submit(" ", email, id) == Some(User(id, " ", email, []))
  {
  }

  /** The form's state, updated by the inputs' change handlers. */
  class LoginForm {
    var name: string
    var email: string

    constructor ()
      ensures name == "" && email == ""
    {
      name := "";
      email := "";
    }

    method SetName(v: string)
      modifies this
      ensures name == v && email == old(email)
    {
      name := v;
    }

    method SetEmail(v: string)
      modifies this
      ensures email == v && name == old(name)
    {
      email := v;
    }

    /** Submitting the form reads the current fields; `Some` is the single
        call of the login callback, `None` is no call. */
    method HandleSubmit(id: string) returns (u: Option<User>)
      ensures u == Submit(name, email, id)
    {
      u := Submit(name, email, id);
    }
  }
}
