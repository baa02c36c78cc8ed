/**
 * The application shell: which section is shown, the mock session flag
 * mirrored in storage under "isLoggedIn", and the enrolment/payment flow.
 */
module Application {
  import opened Wrappers
  import opened Storage
  import opened Profiles

  const LoggedInKey := "isLoggedIn"

  datatype Section = Home | Courses | StudyMaterials | Tests | Progress | Contact

  /** The sections rendered only for a logged-in user. */
  predicate MembersOnly(s: Section)
  {
    s == StudyMaterials || s == Tests || s == Progress
  }

  /**
   * The page body for the active section: members-only sections render
   * only when logged in, the others always; otherwise nothing renders.
   */
  function PageOf(active: Section, isLoggedIn: bool): (r: Option<Section>)
    ensures r.Some? ==> r.value == active
    ensures r.Some? <==> (MembersOnly(active) ==> isLoggedIn)
    ensures !MembersOnly(active) ==> r == Some(active)
  {
    if MembersOnly(active) && !isLoggedIn then None else Some(active)
  }

  /** The session flag read from storage: logged in only for the exact text "true". */
  function StoredSession(items: Items): (r: bool)
    ensures r <==> LoggedInKey in items && items[LoggedInKey] == "true"
  {
    Get(items, LoggedInKey) == Some("true")
  }

  datatype Course = Course(title: string, price: nat)

  class App {
    var activeSection: Section
    var isLoggedIn: bool
    var selectedCourse: Option<Course>
    var showPayment: bool

    /**
     * A members-only section is active only while logged in, so some page
     * always renders; payment is only ever opened together with a course,
     * and the course is never cleared.
     */
    ghost predicate Valid()
      reads this
    {
      && (MembersOnly(activeSection) ==> isLoggedIn)
      && (showPayment ==> selectedCourse.Some?)
    }

    /** The session flag agrees with the stored one. */
    ghost predicate InSync(store: LocalStorage)
      reads this, store
    {
      isLoggedIn == StoredSession(store.items)
    }

    /** The rendered page: while the gating invariant holds, the active section always renders. */
    function Page(): (r: Option<Section>)
      reads this
      ensures r.Some? ==> r.value == activeSection
      ensures Valid() ==> r == Some(activeSection)
      ensures r.None? <==> MembersOnly(activeSection) && !isLoggedIn
    {
      PageOf(activeSection, isLoggedIn)
    }

    /**
     * The payment dialog renders when it is open and a course is selected;
     * since it is only opened with a course, the course guard never hides an
     * open dialog.
     */
    function PaymentVisible(): (r: bool)
      reads this
      requires Valid()
      ensures r <==> showPayment
    {
      showPayment && selectedCourse.Some?
    }

    /** First render followed by the mount effect that reads the stored session flag. */
    constructor (store: LocalStorage)
      ensures Valid() && InSync(store)
      ensures activeSection == Home && isLoggedIn == StoredSession(store.items)
      ensures selectedCourse == None && !showPayment
    {
      activeSection := Home;
      isLoggedIn := Get(store.items, LoggedInKey) == Some("true");
      selectedCourse := None;
      showPayment := false;
    }

    /** setActiveSection, as the navigation calls it: only sections its menu offers. */
    method SetActiveSection(s: Section)
      requires Valid() && (MembersOnly(s) ==> isLoggedIn)
      modifies this`activeSection
      ensures Valid() && activeSection == s && Page() == Some(s)
    {
      activeSection := s;
    }

    /** handleLogin: stores the flag, and the profile only when one is supplied. */
    method HandleLogin(userData: Option<Profile>, store: LocalStorage)
      requires Valid()
      modifies this`isLoggedIn, store
      ensures Valid() && InSync(store) && isLoggedIn
      ensures userData.None? ==> store.items == Set(old(store.items), LoggedInKey, "true")
      ensures userData.Some? ==>
        store.items == Set(Set(old(store.items), LoggedInKey, "true"), ProfileKey, Encode(userData.value))
    {
      store.SetItem(LoggedInKey, "true");
      if userData.Some? {
        store.SetItem(ProfileKey, Encode(userData.value));
      }
      isLoggedIn := true;
    }

    /** handleLogout: removes the flag, logs out and returns to the home section. */
    method HandleLogout(store: LocalStorage)
      requires Valid()
      modifies this`isLoggedIn, this`activeSection, store
      ensures Valid() && InSync(store)
      ensures !isLoggedIn && activeSection == Home
      ensures store.items == Remove(old(store.items), LoggedInKey)
    {
      store.RemoveItem(LoggedInKey);
      isLoggedIn := false;
      activeSection := Home;
    }

    /** handleEnrollCourse: remembers the course and opens the payment dialog. */
    method HandleEnrollCourse(course: Course)
      requires Valid()
      modifies this`selectedCourse, this`showPayment
      ensures Valid() && selectedCourse == Some(course) && showPayment
      ensures PaymentVisible()
    {
      selectedCourse := Some(course);
      showPayment := true;
    }

    /** The payment dialog's close action. */
    method ClosePayment()
      requires Valid()
      modifies this`showPayment
      ensures Valid() && !showPayment && !PaymentVisible()
    {
      showPayment := false;
    }

    /**
     * The payment dialog's success callback: closes the dialog, logs in
     * without touching the stored profile, and opens the study materials.
     */
    method PaymentSucceeded(store: LocalStorage)
      requires Valid() && PaymentVisible()
      modifies this`showPayment, this`isLoggedIn, this`activeSection, store
      ensures Valid() && InSync(store)
      ensures !showPayment && isLoggedIn && activeSection == StudyMaterials
      ensures Page() == Some(StudyMaterials)
      ensures store.items == Set(old(store.items), LoggedInKey, "true")
      ensures Get(store.items, ProfileKey) == Get(old(store.items), ProfileKey)
    {
      showPayment := false;
      HandleLogin(None, store);
      activeSection := StudyMaterials;
    }
  }
}
