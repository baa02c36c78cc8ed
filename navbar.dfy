/**
 * The navigation bar: the menu offered for the session state, the
 * avatar's name and initials read from the stored profile, and the
 * dialog and mobile-menu flags it owns.
 */
module Navbar {
  import opened Wrappers
  import opened Storage
  import opened Profiles
  import opened Application
  import Initials

  /** The menu: members-only entries are spliced in between Courses and Contact when logged in. */
  function MenuItems(isLoggedIn: bool): (r: seq<Section>)
    ensures !isLoggedIn ==> r == [Home, Courses, Contact]
    ensures isLoggedIn ==> |r| == 6 && r[0] == Home && r[5] == Contact
  {
    [Home, Courses] + (if isLoggedIn then [StudyMaterials, Tests, Progress] else []) + [Contact]
  }

  /**
   * The menu offers a section exactly when the shell would render it:
   * study materials, tests and progress appear iff logged in, the rest always.
   */
  lemma MenuGating(isLoggedIn: bool)
    ensures forall s :: s in MenuItems(isLoggedIn) <==> (MembersOnly(s) ==> isLoggedIn)
  {
    var r := MenuItems(isLoggedIn);
    forall s ensures s in r <==> (MembersOnly(s) ==> isLoggedIn) {
      match s
      case Home => assert r[0] == s;
      case Courses => assert r[1] == s;
      case Contact => assert r[|r| - 1] == s;
      case StudyMaterials => if isLoggedIn { assert r[2] == s; }
      case Tests => if isLoggedIn { assert r[3] == s; }
      case Progress => if isLoggedIn { assert r[4] == s; }
    }
  }

  /** The name and e-mail the bar shows. */
  datatype Shown = Shown(name: string, email: string)

  const DefaultShown := Shown("John Doe", "john.doe@example.com")

  /**
   * The stored profile, or John Doe when nothing (or the empty text) is
   * stored or the stored text is malformed.
   */
  function StoredProfile(items: Items): (r: Shown)
    ensures Get(items, ProfileKey).None? ==> r == DefaultShown
    ensures forall p :: Get(items, ProfileKey) == Some(Encode(p)) ==> r == Shown(p.name, p.email)
  {
    Profiles.DecodeEncodeAll();
    match Get(items, ProfileKey)
    case None => DefaultShown
    case Some(raw) =>
      if raw == "" then DefaultShown
      else match Decode(raw)
        case Some(p) => Shown(p.name, p.email)
        case None => DefaultShown
  }

  /** Text that does not decode as a profile leaves the default in place. */
  lemma MalformedFallsBack(items: Items)
    requires ProfileKey in items && Decode(items[ProfileKey]).None?
    ensures StoredProfile(items) == DefaultShown
  {
  }

  /** The avatar letters of the shown name: "JD" when nothing is stored. */
  function AvatarInitials(items: Items): (r: string)
    ensures Get(items, ProfileKey).None? ==> r == "JD"
    ensures forall p :: Get(items, ProfileKey) == Some(Encode(p)) ==> r == Initials.Initials(p.name)
  {
    Initials.DefaultNameInitials();
    Initials.Initials(StoredProfile(items).name)
  }

  class NavbarState {
    var isMobileMenuOpen: bool
    var showSettings: bool
    var showProfile: bool
    var showLogoutDialog: bool
    var showLoginModal: bool

    constructor ()
      ensures !isMobileMenuOpen && !showSettings && !showProfile && !showLogoutDialog && !showLoginModal
    {
      isMobileMenuOpen, showSettings, showProfile, showLogoutDialog, showLoginModal := false, false, false, false, false;
    }

    method ToggleMobileMenu()
      modifies this`isMobileMenuOpen
      ensures isMobileMenuOpen == !old(isMobileMenuOpen)
    {
      isMobileMenuOpen := !isMobileMenuOpen;
    }

    /** The logo: back to the home section. */
    method LogoClick(app: App)
      requires app.Valid()
      modifies app`activeSection
      ensures app.Valid() && app.activeSection == Home
    {
      app.SetActiveSection(Home);
    }

    /** A desktop menu entry. */
    method ItemClick(app: App, s: Section)
      requires app.Valid() && s in MenuItems(app.isLoggedIn)
      modifies app`activeSection
      ensures app.Valid() && app.activeSection == s && app.Page() == Some(s)
    {
      MenuGating(app.isLoggedIn);
      app.SetActiveSection(s);
    }

    /** A mobile menu entry: selects the section and closes the menu. */
    method MobileItemClick(app: App, s: Section)
      requires app.Valid() && s in MenuItems(app.isLoggedIn)
      modifies this`isMobileMenuOpen, app`activeSection
      ensures app.Valid() && app.activeSection == s && !isMobileMenuOpen
    {
      MenuGating(app.isLoggedIn);
      app.SetActiveSection(s);
      isMobileMenuOpen := false;
    }

    /** "Logout" asks for confirmation first; from the mobile menu it also closes the menu. */
    method LogoutClick(fromMobileMenu: bool)
      modifies this`showLogoutDialog, this`isMobileMenuOpen
      ensures showLogoutDialog
      ensures isMobileMenuOpen == (if fromMobileMenu then false else old(isMobileMenuOpen))
    {
      if fromMobileMenu {
        isMobileMenuOpen := false;
      }
      showLogoutDialog := true;
    }

    /** confirmLogout: logs out through the shell and closes the dialog. */
    method ConfirmLogout(app: App, store: LocalStorage)
      requires app.Valid()
      modifies this`showLogoutDialog, app`isLoggedIn, app`activeSection, store
      ensures !showLogoutDialog
      ensures app.Valid() && app.InSync(store) && !app.isLoggedIn && app.activeSection == Home
      ensures store.items == Remove(old(store.items), LoggedInKey)
    {
      app.HandleLogout(store);
      showLogoutDialog := false;
    }

    method LoginClick()
      modifies this`showLoginModal
      ensures showLoginModal
    {
      showLoginModal := true;
    }

    /** The login dialog reported a profile: log in through the shell, then the dialog closes. */
    method LoginSucceeded(app: App, store: LocalStorage, profile: Profile)
      requires app.Valid()
      modifies this`showLoginModal, app`isLoggedIn, store
      ensures !showLoginModal
      ensures app.Valid() && app.InSync(store) && app.isLoggedIn
      ensures store.items == Set(Set(old(store.items), LoggedInKey, "true"), ProfileKey, Encode(profile))
      ensures StoredProfile(store.items) == Shown(profile.name, profile.email)
    {
      app.HandleLogin(Some(profile), store);
      showLoginModal := false;
    }

    /** "My Profile" or "Settings"; from the mobile menu the menu also closes. */
    method OpenDialog(settings: bool, fromMobileMenu: bool)
      modifies this`showSettings, this`showProfile, this`isMobileMenuOpen
      ensures if settings then showSettings && showProfile == old(showProfile)
              else showProfile && showSettings == old(showSettings)
      ensures isMobileMenuOpen == (if fromMobileMenu then false else old(isMobileMenuOpen))
    {
      if settings {
        showSettings := true;
      } else {
        showProfile := true;
      }
      if fromMobileMenu {
        isMobileMenuOpen := false;
      }
    }
  }
}
