/** POST /api/login: the single hard-coded teacher credential. */
module Login {
  import opened JsStrings
  import opened Model

  const TeacherName := "yokyay"
  const TeacherPassword := "461225"

  /**
   * `username` and `password` are the request fields, the empty string when
   * absent. The name is compared trimmed and lower-cased, the password trimmed.
   */
  function Login(username: string, password: string): (r: Reply<User>)
    ensures r.Done? <==> ToLower(Trim(username)) == TeacherName && Trim(password) == TeacherPassword
    ensures r.Done? ==> r == Done(200, User(TeacherName, "Teacher"))
    ensures r.Fail? ==> r == Fail(401, "Invalid credentials")
  {
    var safeUser := ToLower(Trim(username));
    var safePass := Trim(password);
    if safeUser == TeacherName && safePass == TeacherPassword then Done(200, User(TeacherName, "Teacher"))
    else Fail(401, "Invalid credentials")
  }

  /** The answer does not change with white space around either field or with the name's case. */
  lemma LoginIgnoresPaddingAndCase(u: string, p: string, f1: string, b1: string, f2: string, b2: string)
    requires AllSpace(f1) && AllSpace(b1) && AllSpace(f2) && AllSpace(b2)
    ensures Login(f1 + ToLower(u) + b1, f2 + p + b2) == Login(u, p)
  {
    TrimIgnoresPadding(f1, ToLower(u), b1);
    TrimIgnoresPadding(f2, p, b2);
    TrimLowerCommute(u);
    ToLowerIdempotent(Trim(u));
  }

  /** An example: upper case and surrounding blanks are accepted. */
  lemma LoginExampleAccepted()
    ensures Login(" YokYay ", "461225\n").Done?
  {
    var u, p := " YokYay ", "461225\n";
    assert SkipFront(u, 0, |u|) == 1;
    assert SkipBack(u, 1, |u|) == 7;
    assert Trim(u) == "YokYay";
    assert SkipFront(p, 0, |p|) == 0;
    assert SkipBack(p, 0, |p|) == 6;
    assert Trim(p) == "461225";
    var lower := ToLower("YokYay");
    assert lower == TeacherName;
  }

  /** A wrong password is refused. */
  lemma LoginExampleRefused()
    ensures Login("yokyay", "461226").Fail?
  {
    TrimOfTrimmed("461226");
  }
}
