/**
 * The credential check of the login screen (components/LoginScreen.tsx):
 * find the first user whose e-mail matches the typed one without regard to
 * case, then accept the typed password against the stored one.
 *
 * Lower-casing is modelled for ASCII letters only.
 */
module Login {
  import opened Wrappers
  import opened Types
  import Seeds

  /** ASCII lower-casing of one character. */
  function LowerChar(c: char): char
  {
    if 'A' <= c <= 'Z' then (c as int + 32) as char else c
  }

  /** `toLowerCase()`, character by character. */
  function Lower(s: string): (r: string)
    ensures |r| == |s|
    ensures forall k :: 0 <= k < |s| ==> r[k] == LowerChar(s[k])
  {
    seq(|s|, k requires 0 <= k < |s| => LowerChar(s[k]))
  }

  /** Lower-casing twice is lower-casing once. */
  lemma LowerIdempotent(s: string)
    ensures Lower(Lower(s)) == Lower(s)
  {
    var a := Lower(Lower(s));
    var b := Lower(s);
    assert |a| == |b|;
    forall k | 0 <= k < |a| ensures a[k] == b[k] {
      assert a[k] == LowerChar(LowerChar(s[k]));
    }
  }

  /** `u.email.toLowerCase() === email.toLowerCase()`. */
  predicate SameEmail(stored: string, typed: string)
  {
    Lower(stored) == Lower(typed)
  }

  /** `i` is the position `users.find` stops at: the first matching user. */
  predicate FirstMatch(users: seq<User>, email: string, i: int)
  {
    && 0 <= i < |users|
    && SameEmail(users[i].email, email)
    && forall k :: 0 <= k < i ==> !SameEmail(users[k].email, email)
  }

  /** The position of the user `find` returns, or -1 when it returns undefined. */
  function Find(users: seq<User>, email: string): (i: int)
    ensures -1 <= i < |users|
    ensures i == -1 <==> forall k :: 0 <= k < |users| ==> !SameEmail(users[k].email, email)
    ensures i >= 0 ==> FirstMatch(users, email, i)
  {
    if |users| == 0 then -1
    else if SameEmail(users[0].email, email) then 0
    else
      var i := Find(users[1..], email);
      if i == -1 then -1 else i + 1
  }

  /** There is at most one first match. */
  lemma FirstMatchUnique(users: seq<User>, email: string, i: int, j: int)
    requires FirstMatch(users, email, i) && FirstMatch(users, email, j)
    ensures i == j
  {
  }

  /**
   * `storedPass === '' || storedPass === password || (storedPass === '' &&
   * password === '1234')`, where `storedPass` is undefined for a user
   * without a password.
   */
  predicate PasswordAccepted(stored: Option<string>, typed: string)
  {
    match stored
    case None => false
    case Some(p) => p == "" || p == typed || (p == "" && typed == "1234")
  }

  /**
   * The third disjunct adds nothing: a blank stored password accepts any
   * typed one, a set one accepts only itself, and a missing one accepts
   * nothing.
   */
  lemma PasswordAcceptedIff(stored: Option<string>, typed: string)
    ensures PasswordAccepted(stored, typed) <==> stored == Some("") || stored == Some(typed)
  {
  }

  const InvalidCredentials := "Credenciales inválidas. Contacte a soporte.aiwis@gmail.com si olvidó su clave."

  /** The fields of the login form. */
  datatype Form = Form(email: string, password: string, error: string)

  /** The form after a submit, and the user handed to `onLogin`, if any. */
  datatype Submitted = Submitted(form: Form, loggedIn: Option<User>)

  /** handleSubmit. */
  function HandleSubmit(users: seq<User>, form: Form): (s: Submitted)
    ensures s.loggedIn.Some? ==> s.form == form
    ensures s.loggedIn.None? ==> s.form == form.(error := InvalidCredentials)
  {
    var i := Find(users, form.email);
    if i >= 0 && PasswordAccepted(users[i].password, form.password) then
      Submitted(form, Some(users[i]))
    else
      Submitted(form.(error := InvalidCredentials), None)
  }

  /**
   * The first user with the typed e-mail alone decides: that user logs in
   * exactly when the password is accepted against theirs. A later user with
   * the same e-mail is never considered.
   */
  lemma FirstMatchDecides(users: seq<User>, form: Form, i: int)
    requires FirstMatch(users, form.email, i)
    ensures HandleSubmit(users, form).loggedIn ==
            if PasswordAccepted(users[i].password, form.password) then Some(users[i]) else None
  {
    FirstMatchUnique(users, form.email, i, Find(users, form.email));
  }

  /** Without a user for the typed e-mail the login is rejected. */
  lemma NoMatchRejects(users: seq<User>, form: Form)
    requires forall k :: 0 <= k < |users| ==> !SameEmail(users[k].email, form.email)
    ensures HandleSubmit(users, form) == Submitted(form.(error := InvalidCredentials), None)
  {
  }

  /**
   * Whoever logs in is one of the users, has the typed e-mail up to case,
   * and has a blank password or the typed one.
   */
  lemma LoggedInUserMatches(users: seq<User>, form: Form)
    ensures var s := HandleSubmit(users, form);
      s.loggedIn.Some? ==>
        && s.loggedIn.value in users
        && SameEmail(s.loggedIn.value.email, form.email)
        && (s.loggedIn.value.password == Some("") || s.loggedIn.value.password == Some(form.password))
  {
    var i := Find(users, form.email);
    if i >= 0 {
      PasswordAcceptedIff(users[i].password, form.password);
    }
  }

  /** The lookup depends on the typed e-mail only up to case. */
  lemma {:induction false} FindIgnoresCase(users: seq<User>, e1: string, e2: string)
    requires Lower(e1) == Lower(e2)
    ensures Find(users, e1) == Find(users, e2)
    decreases |users|
  {
    if |users| > 0 {
      FindIgnoresCase(users[1..], e1, e2);
    }
  }

  /** Only the case of the typed e-mail changing never changes the outcome. */
  lemma EmailCaseIgnored(users: seq<User>, form: Form, email: string)
    requires Lower(email) == Lower(form.email)
    ensures HandleSubmit(users, form.(email := email)).loggedIn == HandleSubmit(users, form).loggedIn
  {
    FindIgnoresCase(users, email, form.email);
  }

  /** handleRootLogin: fill in the root credentials; nothing is submitted. */
  function HandleRootLogin(form: Form): (f: Form)
    ensures f.email == "aiwis" && f.password == "123123" && f.error == form.error
  {
    form.(email := "aiwis", password := "123123")
  }

  /** The filled-in root credentials log in the seeded root user when submitted. */
  lemma RootLoginWithSeeds(form: Form)
    ensures HandleSubmit(Seeds.InitialUsers, HandleRootLogin(form)).loggedIn == Some(Seeds.InitialUsers[0])
  {
    var users := Seeds.InitialUsers;
    var f := HandleRootLogin(form);
    assert users[0].email == "aiwis" && users[0].password == Some("123123");
    assert FirstMatch(users, f.email, 0);
    FirstMatchDecides(users, f, 0);
  }
}
