/**
 * The mock login and sign-up dialog. Credentials are checked on the
 * client: any e-mail with the fixed demo password logs in. Every
 * successful path builds a profile, stores it under "userProfile" and
 * reports it to the caller; the work happens in timer callbacks, which
 * are modelled as pending jobs fired by a separate step.
 */
module LoginModal {
  import opened Wrappers
  import opened Text
  import opened Profiles
  import Storage

  const LoginPassword := "password123"
  const MinPasswordLength := 6

  /** The profile a successful login builds: the name is the e-mail up to its first '@'. */
  function LoginProfile(email: string): Profile
  {
    Profile(BeforeFirst(email, '@'), email, "+91-98765-43210", "Mumbai, India", "1999-05-15", "",
            "Aspiring MBA student preparing for CAT 2026")
  }

  /**
   * The login rule: it succeeds exactly for the demo password, whatever
   * the e-mail; the profile's name is the e-mail's text before its first
   * '@', or the whole e-mail when it has none.
   */
  function CheckLogin(email: string, password: string): (r: Option<Profile>)
    ensures r.Some? <==> password == LoginPassword
    ensures r.Some? ==> r.value.email == email
    ensures r.Some? ==> |r.value.name| <= |email| && email[..|r.value.name|] == r.value.name && '@' !in r.value.name
    ensures r.Some? ==> ('@' in email <==> |r.value.name| < |email|)
    ensures r.Some? && |r.value.name| < |email| ==> email[|r.value.name|] == '@'
  {
    if password == LoginPassword then
      var p := LoginProfile(email);
      assert '@' !in p.name by {
        forall i | 0 <= i < |p.name| ensures p.name[i] != '@' { }
      }
      assert |p.name| == |email| ==> p.name == email;
      Some(p)
    else None
  }

  datatype SignupError = PasswordMismatch | PasswordTooShort

  /**
   * The sign-up rule: a password differing from its confirmation is
   * rejected first, then one shorter than six characters; an accepted
   * sign-up yields a profile with the entered name and e-mail and every
   * other field empty.
   */
  function CheckSignup(name: string, email: string, password: string, confirm: string): (r: Result<Profile, SignupError>)
    ensures password != confirm ==> r == Err(PasswordMismatch)
    ensures password == confirm && |password| < MinPasswordLength ==> r == Err(PasswordTooShort)
    ensures r.Ok? <==> password == confirm && |password| >= MinPasswordLength
    ensures r.Ok? ==> r.value == Profile(name, email, "", "", "", "", "")
  {
    if password != confirm then Err(PasswordMismatch)
    else if |password| < MinPasswordLength then Err(PasswordTooShort)
    else Ok(Profile(name, email, "", "", "", "", ""))
  }

  /** A six-character password is long enough; five is not. */
  lemma SignupLengthBoundary(name: string, email: string)
    ensures CheckSignup(name, email, "abcdef", "abcdef").Ok?
    ensures CheckSignup(name, email, "abcde", "abcde") == Err(PasswordTooShort)
    ensures CheckSignup(name, email, "abc", "abd") == Err(PasswordMismatch)
  {
  }

  /** The fixed profile of the demo login. */
  const DemoProfile := Profile("Demo User", "demo@thinkplus.edu", "+91-98765-43210", "Mumbai, India",
                               "1999-05-15", "", "Aspiring MBA student preparing for CAT 2026")

  /** Work scheduled by a handler, with the form data it captured. */
  datatype Job = LoginJob(email: string, password: string) | SignupJob(name: string, email: string) | DemoJob

  /** What a job reports to the caller when it fires: the new profile, or nothing. */
  function JobOutcome(job: Job): (r: Option<Profile>)
    ensures job.LoginJob? ==> r == CheckLogin(job.email, job.password)
    ensures job.SignupJob? ==> r == Some(Profile(job.name, job.email, "", "", "", "", ""))
    ensures job.DemoJob? ==> r == Some(DemoProfile)
  {
    match job
    case LoginJob(email, password) => CheckLogin(email, password)
    case SignupJob(name, email) => Some(Profile(name, email, "", "", "", "", ""))
    case DemoJob => Some(DemoProfile)
  }

  /** A login with a wrong password reports nothing; every other job reports a profile. */
  lemma FailedLoginReportsNothing(job: Job)
    ensures JobOutcome(job).None? <==> job.LoginJob? && job.password != LoginPassword
  {
  }

  class LoginDialog {
    var isLoading: bool
    var loginEmail: string
    var loginPassword: string
    var signupName: string
    var signupEmail: string
    var signupPassword: string
    var signupConfirm: string
    /** Timer callbacks scheduled and not yet run. */
    var jobs: seq<Job>

    constructor ()
      ensures !isLoading && jobs == []
      ensures loginEmail == "" && loginPassword == ""
      ensures signupName == "" && signupEmail == "" && signupPassword == "" && signupConfirm == ""
    {
      isLoading := false;
      loginEmail, loginPassword := "", "";
      signupName, signupEmail, signupPassword, signupConfirm := "", "", "", "";
      jobs := [];
    }

    method EditLogin(email: string, password: string)
      modifies this`loginEmail, this`loginPassword
      ensures loginEmail == email && loginPassword == password
    {
      loginEmail, loginPassword := email, password;
    }

    method EditSignup(name: string, email: string, password: string, confirm: string)
      modifies this`signupName, this`signupEmail, this`signupPassword, this`signupConfirm
      ensures signupName == name && signupEmail == email && signupPassword == password && signupConfirm == confirm
    {
      signupName, signupEmail, signupPassword, signupConfirm := name, email, password, confirm;
    }

    /** handleLogin: shows the busy state and schedules the credential check. */
    method SubmitLogin()
      requires !isLoading
      modifies this`isLoading, this`jobs
      ensures isLoading
      ensures jobs == old(jobs) + [LoginJob(loginEmail, loginPassword)]
    {
      isLoading := true;
      jobs := jobs + [LoginJob(loginEmail, loginPassword)];
    }

    /** handleSignup: a rejected form schedules nothing and stays idle. */
    method SubmitSignup() returns (error: Option<SignupError>)
      requires !isLoading
      modifies this`isLoading, this`jobs
      ensures error.Some? <==> CheckSignup(signupName, signupEmail, signupPassword, signupConfirm).Err?
      ensures error.Some? ==> error.value == CheckSignup(signupName, signupEmail, signupPassword, signupConfirm).error
      ensures error.Some? ==> !isLoading && jobs == old(jobs)
      ensures error.None? ==> isLoading && jobs == old(jobs) + [SignupJob(signupName, signupEmail)]
    {
      if signupPassword != signupConfirm {
        return Some(PasswordMismatch);
      }
      if |signupPassword| < MinPasswordLength {
        return Some(PasswordTooShort);
      }
      isLoading := true;
      jobs := jobs + [SignupJob(signupName, signupEmail)];
      error := None;
    }

    /** handleDemoLogin: fills the login form with the demo credentials and schedules the demo login. */
    method DemoLogin()
      modifies this`loginEmail, this`loginPassword, this`jobs
      ensures loginEmail == "demo@thinkplus.edu" && loginPassword == LoginPassword
      ensures jobs == old(jobs) + [DemoJob]
    {
      loginEmail, loginPassword := "demo@thinkplus.edu", LoginPassword;
      jobs := jobs + [DemoJob];
    }

    /**
     * Job `i` fires. A reported profile has been stored under
     * "userProfile"; a failed login stores nothing. Login and sign-up
     * jobs end the busy state; the demo job never set it.
     */
    method FireJob(i: nat, store: Storage.LocalStorage) returns (success: Option<Profile>)
      requires i < |jobs|
      modifies this`isLoading, this`jobs, store
      ensures jobs == old(jobs[..i] + jobs[i + 1..])
      ensures success == JobOutcome(old(jobs[i]))
      ensures success.Some? ==> store.items == Storage.Set(old(store.items), ProfileKey, Encode(success.value))
      ensures success.None? ==> store.items == old(store.items)
      ensures isLoading == (if old(jobs[i]).DemoJob? then old(isLoading) else false)
    {
      var job := jobs[i];
      jobs := jobs[..i] + jobs[i + 1..];
      success := JobOutcome(job);
      if success.Some? {
        store.SetItem(ProfileKey, Encode(success.value));
      }
      if !job.DemoJob? {
        isLoading := false;
      }
    }
  }
}
