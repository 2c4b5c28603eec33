/**
 * The participant's registration page (src/pages/RegisterPage.tsx): the
 * active store id, the registration form's checks, the gate in front of the
 * spin and the route chosen after it.
 */
module RegisterPage {
  import opened Wrappers
  import opened Js
  import UseRegistration

  /** `paramStoreId || searchParams.get("store")` */
  function ActiveStoreId(param: Option<string>, query: Option<string>): (r: Option<string>)
    ensures Truthy(param) ==> r == param
    ensures !Truthy(param) ==> r == query
    ensures Truthy(r) <==> Truthy(param) || Truthy(query)
  {
    if Truthy(param) then param else query
  }

  /** `goToStores`: the store list, scoped to the active store when there is one. */
  function StoresRoute(activeStoreId: Option<string>): (route: string)
    ensures "/tiendas" <= route
    ensures route == "/tiendas" <==> !Truthy(activeStoreId)
    ensures Truthy(activeStoreId) ==>
              "/tiendas?store=" <= route && route[|"/tiendas?store="|..] == activeStoreId.value
  {
    if Truthy(activeStoreId) then "/tiendas?store=" + activeStoreId.value else "/tiendas"
  }

  // ---------------------------------------------------------------------
  // The email pattern ^[^\s@]+@[^\s@]+\.[^\s@]+$
  // ---------------------------------------------------------------------

  /** A run matched by `[^\s@]+`. */
  predicate Plain(t: string) {
    t != [] && NoSpace(t) && '@' !in t
  }

  /** The pattern read as a decomposition: a plain run, `@`, a plain run, a
      dot, a plain run, covering the whole string. */
  ghost predicate MatchesEmailPattern(s: string) {
    exists k, j :: 0 < k && k + 1 < j < |s| - 1 && s[k] == '@' && s[j] == '.' &&
                   Plain(s[..k]) && Plain(s[k + 1..j]) && Plain(s[j + 1..])
  }

  /** A dot with at least one character on each side. */
  predicate HasInnerDot(w: string) {
    exists j | 0 < j < |w| - 1 :: w[j] == '.'
  }

  /** The check the page runs: no whitespace, a non-empty part before the
      first `@`, no other `@`, and an inner dot after it. */
  predicate EmailShape(s: string) {
    var local := BeforeFirst(s, '@');
    |local| < |s| && local != [] && NoSpace(s) &&
    '@' !in s[|local| + 1..] && HasInnerDot(s[|local| + 1..])
  }

  /** Every string the computable check accepts matches the pattern. */
  lemma EmailShapeSound(s: string)
    requires EmailShape(s)
    ensures MatchesEmailPattern(s)
  {
    var k := |BeforeFirst(s, '@')|;
    var rest := s[k + 1..];
    var j' :| 0 < j' < |rest| - 1 && rest[j'] == '.';
    var j := k + 1 + j';
    assert s[j] == '.';
    assert s[k + 1..j] == rest[..j'];
    assert s[j + 1..] == rest[j' + 1..];
    assert Plain(s[..k]);
    assert Plain(s[k + 1..j]);
    assert Plain(s[j + 1..]);
  }

  /** The check accepts `a@b.c` for plain runs `a`, `b` and `c`. */
  lemma EmailShapeOfParts(a: string, b: string, c: string)
    requires Plain(a) && Plain(b) && Plain(c)
    ensures EmailShape(a + ['@'] + (b + ['.'] + c))
  {
    var rest := b + ['.'] + c;
    var s := a + ['@'] + rest;
    assert s[|a|] == '@';
    assert s[..|a|] == a;
    BeforeFirstAt(s, '@', |a|);
    assert s[|a| + 1..] == rest;
    assert rest[|b|] == '.';
    assert HasInnerDot(rest);
    NoSpaceConcat(b, ['.']);
    NoSpaceConcat(b + ['.'], c);
    NoSpaceConcat(a, ['@']);
    NoSpaceConcat(a + ['@'], rest);
  }

  /** Helper for `EmailShapeComplete`: cutting at `k` and then at `j`. */
  lemma SplitTwice(s: string, k: int, j: int)
    requires 0 <= k < j < |s|
    ensures s == s[..k] + [s[k]] + (s[k + 1..j] + [s[j]] + s[j + 1..])
  {
  }

  /** Every string the pattern matches passes the computable check. */
  lemma EmailShapeComplete(s: string)
    requires MatchesEmailPattern(s)
    ensures EmailShape(s)
  {
    var k, j :| 0 < k && k + 1 < j < |s| - 1 && s[k] == '@' && s[j] == '.' &&
                Plain(s[..k]) && Plain(s[k + 1..j]) && Plain(s[j + 1..]);
    SplitTwice(s, k, j);
    EmailShapeOfParts(s[..k], s[k + 1..j], s[j + 1..]);
  }

  /** The computable check accepts exactly the strings the pattern matches. */
  lemma EmailShapeMatchesPattern(s: string)
    ensures EmailShape(s) <==> MatchesEmailPattern(s)
  {
    if EmailShape(s) {
      EmailShapeSound(s);
    }
    if MatchesEmailPattern(s) {
      EmailShapeComplete(s);
    }
  }

  // ---------------------------------------------------------------------
  // handleRegisterSubmit
  // ---------------------------------------------------------------------

  const BadEmailAlert: string := "Por favor, ingresa un correo electrónico válido (ejemplo@correo.com)"
  const ShortDniAlert: string := "El DNI debe tener 8 dígitos"

  /** What a submit of the form does: nothing, an alert, or acceptance. */
  datatype RegisterStep = Ignored | Alert(text: string) | Accepted

  /** The checks of `handleRegisterSubmit`, in order: required fields and the
      terms box, then the email pattern, then a DNI of at least 8 characters.
      `dni` and `email` are `None` when undefined. */
  function RegisterCheck(name: string, dni: Option<string>, email: Option<string>, termsAccepted: bool)
    : (step: RegisterStep)
    ensures step == Ignored <==> name == [] || !Truthy(dni) || !Truthy(email) || !termsAccepted
    ensures step.Alert? ==> step.text == BadEmailAlert || step.text == ShortDniAlert
  {
    if name == [] || !Truthy(dni) || !Truthy(email) || !termsAccepted then Ignored
    else if !EmailShape(email.value) then Alert(BadEmailAlert)
    else if |dni.value| < 8 then Alert(ShortDniAlert)
    else Accepted
  }

  /** A submit is accepted exactly when every field is filled, the terms are
      accepted, the email matches the pattern and the DNI has at least 8
      characters; a bad email is reported before a short DNI. */
  lemma RegisterCheckAccepts(name: string, dni: string, email: string, termsAccepted: bool)
    ensures RegisterCheck(name, Some(dni), Some(email), termsAccepted) == Accepted <==>
              name != [] && email != [] && termsAccepted && MatchesEmailPattern(email) && |dni| >= 8
    ensures RegisterCheck(name, Some(dni), Some(email), termsAccepted) == Alert(BadEmailAlert) <==>
              name != [] && dni != [] && email != [] && termsAccepted && !MatchesEmailPattern(email)
  {
    EmailShapeMatchesPattern(email);
  }

  /** As written, the page reads `dni` and `email` from the hook, which does
      not return them: both are undefined, so every submit is ignored. */
  lemma HookFieldsNeverRegister(name: string, termsAccepted: bool)
    ensures RegisterCheck(name, None, None, termsAccepted) == Ignored
  {
  }

  /** The state `/exit` is opened with. */
  datatype ExitState = ExitState(prizeName: string, registerId: Option<string>, isAnonymous: bool,
                                 storeId: Option<string>)

  // ---------------------------------------------------------------------
  // The page's state
  // ---------------------------------------------------------------------

  class RegisterForm {
    const activeStoreId: Option<string>
    /** The registration hook the page uses. */
    const hook: UseRegistration.Registration
    var showGif: bool
    var showRegisterModal: bool
    var isRegistered: bool
    var termsAccepted: bool
    /** The page's own DNI and email fields (the hook has none). */
    var dni: string
    var email: string

    /** The page never sets the hook's phone or voucher. */
    predicate HookUntouched()
      reads this, hook
    {
      hook.phone == "" && hook.voucher.None?
    }

    constructor (param: Option<string>, query: Option<string>, campaign: string)
      ensures activeStoreId == ActiveStoreId(param, query) && fresh(hook)
      ensures hook.storeId == param && hook.campaign == campaign && hook.name == "" && !hook.loading
      ensures !showGif && showRegisterModal && !isRegistered && !termsAccepted
      ensures dni == "" && email == ""
      ensures HookUntouched()
    {
      activeStoreId := ActiveStoreId(param, query);
      hook := new UseRegistration.Registration(param, campaign);
      showGif := false;
      showRegisterModal := true;
      isRegistered := false;
      termsAccepted := false;
      dni := "";
      email := "";
    }

    method SetDni(value: string)
      modifies this`dni
      ensures dni == value
    {
      dni := value;
    }

    method SetEmail(value: string)
      modifies this`email
      ensures email == value
    {
      email := value;
    }

    method SetTermsAccepted(value: bool)
      modifies this`termsAccepted
      ensures termsAccepted == value
    {
      termsAccepted := value;
    }

    /** `handleRegisterSubmit`: only an accepted submit hides the modal and
        registers; nothing else changes. */
    method HandleRegisterSubmit() returns (step: RegisterStep)
      modifies this`showRegisterModal, this`isRegistered
      ensures step == RegisterCheck(hook.name, Some(dni), Some(email), termsAccepted)
      ensures step == Accepted ==> isRegistered && !showRegisterModal
      ensures step != Accepted ==>
                isRegistered == old(isRegistered) && showRegisterModal == old(showRegisterModal)
    {
      step := RegisterCheck(hook.name, Some(dni), Some(email), termsAccepted);
      if step == Accepted {
        showRegisterModal := false;
        isRegistered := true;
      }
    }

    /** `onSpinClick`: blocked while the GIF shows, while loading, without a
        store id or unregistered (an idle unregistered click reopens the
        modal); otherwise one spin, and `/exit` is chosen exactly for a
        success with a non-empty prize name, carrying that name and the
        registration id. While the hook's phone is blank, as the
        page leaves it, no click reaches `/exit`. */
    method OnSpinClick(upload: UploadRegistrationReplies) returns (spun: bool, exit: Option<ExitState>)
      modifies this`showRegisterModal, this`showGif, hook`loading, hook`message
      ensures HookUntouched() <==> old(HookUntouched())
      ensures spun <==> !old(showGif) && !old(hook.loading) && Truthy(activeStoreId) && isRegistered
      ensures !spun ==> hook.loading == old(hook.loading) && hook.message == old(hook.message) &&
                        showGif == old(showGif) &&
                        showRegisterModal == (old(showRegisterModal) || (!isRegistered && !old(hook.loading) && !old(showGif)))
      ensures spun ==> showRegisterModal == old(showRegisterModal) && showGif == exit.Some? && !hook.loading &&
                       hook.message == UseRegistration.SpinAttempt(hook.storeId, hook.campaign, hook.name, hook.phone,
                                                                   hook.voucher, upload.upload, upload.register).message
      ensures exit.Some? <==> spun && UseRegistration.Wins(hook.storeId, hook.campaign, hook.name, hook.phone,
                                                           hook.voucher, upload.upload, upload.register)
      ensures exit.Some? ==>
                exit.value == ExitState(upload.register.prize.value, upload.register.registerId, false, activeStoreId) &&
                exit.value.prizeName != []
      ensures AllSpace(hook.phone) ==> exit.None?
    {
      if showGif || hook.loading || !Truthy(activeStoreId) || !isRegistered {
        if !isRegistered && !hook.loading && !showGif {
          showRegisterModal := true;
        }
        return false, None;
      }
      var result, calls := hook.HandleSpin(upload.upload, upload.register);
      UseRegistration.WinsExactly(hook.storeId, hook.campaign, hook.name, hook.phone, hook.voucher, upload.upload, upload.register);
      spun := true;
      exit := None;
      if result.success && Truthy(result.prizeName) {
        showGif := true;
        exit := Some(ExitState(result.prizeName.value, result.registerId, false, activeStoreId));
      }
    }
  }

  /** The replies one spin would receive. */
  datatype UploadRegistrationReplies = Replies(upload: UseRegistration.UploadReply,
                                               register: UseRegistration.RegisterReply)
}
