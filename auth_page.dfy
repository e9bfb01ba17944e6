/**
 * The authentication page: one `mode` field switched by the callbacks the
 * shown form receives, and the rule that renders one form per mode.
 */
module AuthPage {
  import opened Common

  datatype Mode = SignIn | SignUp | Forgot

  /** The three forms the page can show. */
  datatype Panel = SignInPanel | SignUpPanel | ForgotPanel

  /** The callbacks the page hands to its forms. */
  datatype Event = ToggleMode | ForgotPassword | BackToSignIn

  const Panels: set<Panel> := {SignInPanel, SignUpPanel, ForgotPanel}

  /** `handleToggleMode`: sign-in becomes sign-up, every other mode sign-in. */
  function Toggled(m: Mode): (r: Mode)
    ensures r == SignUp <==> m == SignIn
    ensures r != Forgot
  {
    if m == SignIn then SignUp else SignIn
  }

  /** The mode after a callback fires. */
  function Step(m: Mode, e: Event): (r: Mode)
    ensures e == ForgotPassword ==> r == Forgot
    ensures e == BackToSignIn ==> r == SignIn
    ensures e == ToggleMode ==> r == Toggled(m)
  {
    match e
    case ToggleMode => Toggled(m)
    case ForgotPassword => Forgot
    case BackToSignIn => SignIn
  }

  /** Toggling twice returns to the start on sign-in and sign-up; from the forgot mode it ends on sign-up. */
  lemma ToggleTwice(m: Mode)
    ensures Toggled(Toggled(m)) == m <==> m != Forgot
    ensures m == Forgot ==> Toggled(Toggled(m)) == SignUp
  {
  }

  /** The mode under which a panel renders (`mode === '...' && <Form/>`). */
  function ModeOf(p: Panel): Mode {
    match p
    case SignInPanel => SignIn
    case SignUpPanel => SignUp
    case ForgotPanel => Forgot
  }

  /** The panels rendered in a mode. */
  function Rendered(m: Mode): (shown: set<Panel>)
    ensures |shown| == 1
    ensures forall p :: p in shown <==> ModeOf(p) == m
  {
    var shown := set p | p in Panels && ModeOf(p) == m;
    var only := match m case SignIn => SignInPanel case SignUp => SignUpPanel case Forgot => ForgotPanel;
    assert shown == {only};
    shown
  }

  /** The callbacks each form receives. */
  function Offered(p: Panel): (events: set<Event>)
    ensures BackToSignIn in events <==> p == ForgotPanel
    ensures ForgotPassword in events <==> p == SignInPanel
  {
    match p
    case SignInPanel => {ToggleMode, ForgotPassword}
    case SignUpPanel => {ToggleMode}
    case ForgotPanel => {BackToSignIn}
  }

  /**
   * The forgot mode is entered only from the sign-in form, and every callback
   * the forgot form offers returns to sign-in.
   */
  lemma ForgotOnlyFromSignIn(m: Mode, p: Panel, e: Event)
    requires p in Rendered(m) && e in Offered(p)
    ensures Step(m, e) == Forgot ==> m == SignIn
    ensures m == Forgot ==> Step(m, e) == SignIn
  {
  }

  class Page {
    var mode: Mode

    /** The mode starts at `initialMode`, 'signin' when not given. */
    constructor (initialMode: Option<Mode>)
      ensures mode == initialMode.GetOr(SignIn)
    {
      mode := initialMode.GetOr(SignIn);
    }

    method HandleToggleMode()
      modifies this
      ensures mode == Toggled(old(mode))
    {
      mode := if mode == SignIn then SignUp else SignIn;
    }

    method HandleForgotPassword()
      modifies this
      ensures mode == Forgot
    {
      mode := Forgot;
    }

    method HandleBackToSignIn()
      modifies this
      ensures mode == SignIn
    {
      mode := SignIn;
    }
  }
}
