/** The navigation bar: the fixed menu, the right-hand side (Login/Join or the profile
    menu with its role-dependent dashboard entry), sign-out, and the rule that closes the
    open menus on a click elsewhere. */
module NavbarComponent {
  import opened Common
  import AuthContext

  /** The menu shown on every page, in this order. */
  function MenuItems(): (items: seq<Link>)
    ensures |items| == 5
    ensures forall i, j :: 0 <= i < j < |items| ==> items[i].to != items[j].to && items[i].text != items[j].text
    ensures items[0] == Link("/", "Home") && items[1] == Link("/about", "About")
    ensures items[2] == Link("/#services", "Services") && items[3] == Link("/jobs", "Jobs")
    ensures items[4] == Link("/contact", "Contact")
  {
    [ Link("/", "Home"), Link("/about", "About"), Link("/#services", "Services"),
      Link("/jobs", "Jobs"), Link("/contact", "Contact") ]
  }

  /** `user.role === "admin"`; a user without a role is not an administrator. */
  predicate IsAdmin(user: User)
    ensures "role" !in user ==> !IsAdmin(user)
    ensures IsAdmin(user) ==> user["role"] == "admin"
  {
    "role" in user && user["role"] == "admin"
  }

  /** The profile menu's dashboard entry: the admin console for an administrator, the
      applicant dashboard for everyone else. */
  function DashboardLink(user: User): (link: Link)
    ensures IsAdmin(user) <==> link.to == "/admin/dashboard"
    ensures IsAdmin(user) <==> link.text == "Admin Panel"
    ensures !IsAdmin(user) ==> link == Link("/dashboard", "Applications")
  {
    if "role" in user && user["role"] == "admin" then Link("/admin/dashboard", "Admin Panel")
    else Link("/dashboard", "Applications")
  }

  /** The right-hand side of the bar. */
  datatype Account = LoginJoin(login: Link, join: Link) | ProfileMenu(profile: Link, dashboard: Link)

  /** Nobody logged in: Login and Join links and no profile menu. Someone logged in: the
      profile menu, whose dashboard entry follows the role. */
  function AccountArea(user: Option<User>): (area: Account)
    ensures area.LoginJoin? <==> user.None?
    ensures area.LoginJoin? ==> area == LoginJoin(Link("/login", "Login"), Link("/register", "Join"))
    ensures area.ProfileMenu? ==> area.profile.to == "/profile" && area.dashboard == DashboardLink(user.value)
  {
    if user.None? then LoginJoin(Link("/login", "Login"), Link("/register", "Join"))
    else ProfileMenu(Link("/profile", "My Profile"), DashboardLink(user.value))
  }

  /** The open mobile menu: the five menu items, then Login and Join only when nobody is
      logged in. */
  function MobileLinks(user: Option<User>): (links: seq<Link>)
    ensures |links| == if user.None? then 7 else 5
    ensures links[..5] == MenuItems()
    ensures user.None? ==> links[5..] == [Link("/login", "Login"), Link("/register", "Join")]
  {
    MenuItems() + if user.None? then [Link("/login", "Login"), Link("/register", "Join")] else []
  }

  /** Where a mouse-down landed, relative to the profile menu, the mobile menu and the
      mobile toggle button. */
  datatype Click = Click(inProfile: bool, inMobileMenu: bool, onToggle: bool)

  class Navbar {
    const session: AuthContext.AuthProvider
    var profileMenuOpen: bool
    var mobileMenuOpen: bool

    constructor (session: AuthContext.AuthProvider)
      ensures this.session == session && !profileMenuOpen && !mobileMenuOpen
    {
      this.session := session;
      profileMenuOpen, mobileMenuOpen := false, false;
    }

    method ToggleProfileMenu()
      modifies this`profileMenuOpen
      ensures profileMenuOpen == !old(profileMenuOpen)
    {
      profileMenuOpen := !profileMenuOpen;
    }

    method ToggleMobileMenu()
      modifies this`mobileMenuOpen
      ensures mobileMenuOpen == !old(mobileMenuOpen)
    {
      mobileMenuOpen := !mobileMenuOpen;
    }

    /** Following an entry of the profile menu closes it. */
    method CloseProfileMenu()
      modifies this`profileMenuOpen
      ensures !profileMenuOpen
    {
      profileMenuOpen := false;
    }

    /** Following a link of the mobile menu, or clicking its backdrop, closes it. */
    method CloseMobileMenu()
      modifies this`mobileMenuOpen
      ensures !mobileMenuOpen
    {
      mobileMenuOpen := false;
    }

    /** The document-wide mouse-down handler. The profile menu's container exists only
        while someone is logged in; a click outside it closes the profile menu. The mobile
        menu exists only while open; it closes on a click outside both it and the toggle. */
    method HandleClickOutside(click: Click)
      modifies this`profileMenuOpen, this`mobileMenuOpen
      ensures profileMenuOpen == if session.user.Some? && !click.inProfile then false else old(profileMenuOpen)
      ensures mobileMenuOpen == if old(mobileMenuOpen) && !click.inMobileMenu && !click.onToggle then false else old(mobileMenuOpen)
      ensures !old(profileMenuOpen) ==> !profileMenuOpen
      ensures !old(mobileMenuOpen) ==> !mobileMenuOpen
    {
      if session.user.Some? && !click.inProfile {
        profileMenuOpen := false;
      }
      if mobileMenuOpen && !click.inMobileMenu && !click.onToggle {
        mobileMenuOpen := false;
      }
    }

    /** `handleLogout`: end the session, go to "/login" and close both menus. */
    method HandleLogout()
      modifies this`profileMenuOpen, this`mobileMenuOpen, session, session.browser
      ensures session.user == None && session.token == None && session.browser.storage == None
      ensures session.browser.location == "/login"
      ensures !profileMenuOpen && !mobileMenuOpen
      ensures session.loading == old(session.loading)
    {
      session.Logout();
      session.browser.location := "/login";
      profileMenuOpen := false;
      mobileMenuOpen := false;
    }
  }
}
